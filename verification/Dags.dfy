/** The graph of events: hashes, events, roots, the store that holds them, the
    checks an event passes on its way in, and the parent-link relation and
    Lamport clock that every later layer is built on.

    Hashing is abstract: a `Digest` names one event wherever it appears, so two
    stores that hold the same digest hold the same event (`Agree`).  */
module Dags {

  type Creator = int          // a participant's numeric ID
  type Transaction = string

  datatype Option<+T> = None | Some(value: T)

  datatype Error =
    | InvalidSignature
    | UnknownParticipant
    | SelfParentNotLast
    | OtherParentUnknown
    | NoFlagTable
    | KeyNotFound
    | TooLate
    | SkippedIndex

  datatype Result<+T> = Ok(value: T) | Err(error: Error)

  /** "" | "Root<id>" | "0x<bytes>" */
  datatype Hash = NoHash | RootHash(id: Creator) | Digest(bytes: seq<nat>)

  /** The coin: false exactly when the middle byte of the digest is zero. */
  predicate MiddleBit(h: Hash) {
    !(h.Digest? && |h.bytes| > 0 && h.bytes[|h.bytes| / 2] == 0)
  }

  datatype Signature = Signature(r: int, valid: bool)

  datatype BlockSignature = BlockSignature(validator: Creator, index: int, signature: string)

  datatype Event = Event(
    creator: Creator,
    index: int,
    selfParent: Hash,
    otherParent: Hash,
    transactions: seq<Transaction>,
    nilTransactions: bool,                  // the Go slice is nil, not merely empty
    internalTransactions: seq<Transaction>,
    blockSignatures: seq<BlockSignature>,
    signature: Signature,
    flagTable: set<Hash>,
    witnessProof: seq<Hash>)

  predicate Verify(e: Event) { e.signature.valid }

  /** True when the event carries a payload or is its creator's first. */
  predicate IsLoaded(e: Event) {
    e.index == 0 ||
    (!e.nilTransactions && (|e.transactions| > 0 || |e.internalTransactions| > 0))
  }

  datatype RootEvent = RootEvent(hash: Hash, creator: Creator, index: int, lamport: int, round: int)

  datatype Root = Root(nextRound: int, selfParent: RootEvent, others: map<Hash, RootEvent>)

  function BaseRoot(c: Creator): Root {
    Root(0, RootEvent(RootHash(c), c, -1, -1, -1), map[])
  }

  /** The event store: events by hash, their topological index and its inverse,
      each participant's events in index order, the roots both ways round, and how many
      of a participant's newest events the cache holds at least. */
  datatype Dag = Dag(
    events: map<Hash, Event>,
    topo: map<Hash, nat>,
    order: seq<Hash>,
    logs: map<Creator, seq<Hash>>,
    roots: map<Creator, Root>,
    rootOf: map<Hash, Creator>,
    cacheSize: nat)

  // ---------------------------------------------------------------- validity

  /** Position of event `e` in its creator's log. */
  function Position(d: Dag, e: Event): int
    requires e.creator in d.roots
  {
    e.index - d.roots[e.creator].selfParent.index - 1
  }

  ghost predicate SelfParentOk(d: Dag, h: Hash)
    requires h in d.events && h in d.topo && d.events[h].creator in d.roots && d.events[h].creator in d.logs
  {
    var e := d.events[h];
    var log := d.logs[e.creator];
    var p := Position(d, e);
    && 0 <= p < |log| && log[p] == h
    && (p == 0 ==> e.selfParent == d.roots[e.creator].selfParent.hash)
    && (p > 0 ==> e.selfParent == log[p - 1] && e.selfParent in d.topo && d.topo[e.selfParent] < d.topo[h])
  }

  ghost predicate OtherParentOk(d: Dag, h: Hash)
    requires h in d.events && h in d.topo && d.events[h].creator in d.roots
  {
    var e := d.events[h];
    var others := d.roots[e.creator].others;
    || e.otherParent == NoHash
    || (e.otherParent in d.events && e.otherParent in d.topo && d.topo[e.otherParent] < d.topo[h])
    || (e.otherParent !in d.events && h in others && others[h].hash == e.otherParent)
  }

  ghost predicate EventOk(d: Dag, h: Hash)
    requires h in d.events
  {
    var c := d.events[h].creator;
    && h.Digest? && Verify(d.events[h])
    && h in d.topo && d.topo[h] < |d.order| && d.order[d.topo[h]] == h
    && c in d.roots && c in d.logs
    && SelfParentOk(d, h)
    && OtherParentOk(d, h)
  }

  ghost predicate LogOk(d: Dag, c: Creator)
    requires c in d.roots
  {
    var sp := d.roots[c].selfParent;
    && c in d.logs
    && sp.hash != NoHash && sp.hash !in d.events
    && sp.hash in d.rootOf && d.rootOf[sp.hash] == c
    && forall i :: 0 <= i < |d.logs[c]| ==>
         d.logs[c][i] in d.events &&
         d.events[d.logs[c][i]].creator == c && d.events[d.logs[c][i]].index == sp.index + 1 + i
  }

  /** What the insertion checks maintain: every event sits in its creator's log
      right after its self-parent, and its parents are older.  One log entry per
      index means no forks. */
  ghost predicate WellFormed(d: Dag) {
    && d.topo.Keys == d.events.Keys && NoHash !in d.events
    && d.logs.Keys == d.roots.Keys
    && (forall h {:trigger EventOk(d, h)} :: h in d.events ==> EventOk(d, h))
    && (forall i :: 0 <= i < |d.order| ==> d.order[i] in d.events && d.topo[d.order[i]] == i)
    && (forall c {:trigger LogOk(d, c)} :: c in d.roots ==> LogOk(d, c))
    && (forall x :: x in d.rootOf ==> d.rootOf[x] in d.roots && d.roots[d.rootOf[x]].selfParent.hash == x)
  }

  /** A store that has grown from the base roots, without a Reset. */
  ghost predicate Based(d: Dag) {
    WellFormed(d) && forall c :: c in d.roots ==> d.roots[c] == BaseRoot(c)
  }

  predicate AllStored(d: Dag, list: seq<Hash>) {
    forall i :: 0 <= i < |list| ==> list[i] in d.events
  }

  predicate Known(d: Dag, x: Hash) { x in d.events || x in d.rootOf }

  ghost function Rank(d: Dag, x: Hash): nat {
    if x in d.topo then d.topo[x] + 1 else 0
  }

  ghost function CreatorOf(d: Dag, x: Hash): Creator
    requires Known(d, x)
  {
    if x in d.events then d.events[x].creator else d.rootOf[x]
  }

  ghost function IndexOf(d: Dag, x: Hash): int
    requires WellFormed(d) && Known(d, x)
  {
    if x in d.events then d.events[x].index else d.roots[d.rootOf[x]].selfParent.index
  }

  /** The two stores name the same events wherever both hold a hash. */
  ghost predicate Agree(d1: Dag, d2: Dag) {
    && d1.roots == d2.roots
    && forall h :: h in d1.events && h in d2.events ==> d1.events[h] == d2.events[h]
  }

  ghost predicate SubDag(d1: Dag, d2: Dag) {
    && d1.roots == d2.roots
    && forall h :: h in d1.events ==> h in d2.events && d1.events[h] == d2.events[h]
  }

  // ---------------------------------------------------------------- ancestry

  /** `y` can be reached from `x` by following parent links, in zero or more steps. */
  ghost predicate Reach(d: Dag, x: Hash, y: Hash)
    requires WellFormed(d)
    decreases Rank(d, x)
  {
    || x == y
    || (x in d.events &&
        (Parents(d, x);
         || Reach(d, d.events[x].selfParent, y)
         || (d.events[x].otherParent != NoHash && Reach(d, d.events[x].otherParent, y))))
  }

  /** The parents of a stored event are known or recorded in its root, and older. */
  lemma {:induction false} Parents(d: Dag, x: Hash)
    requires WellFormed(d) && x in d.events
    ensures EventOk(d, x)
    ensures Known(d, d.events[x].selfParent) && Rank(d, d.events[x].selfParent) < Rank(d, x)
    ensures CreatorOf(d, d.events[x].selfParent) == d.events[x].creator
    ensures IndexOf(d, d.events[x].selfParent) + 1 == d.events[x].index
    ensures d.events[x].selfParent != NoHash
    ensures Rank(d, d.events[x].otherParent) < Rank(d, x)
  {
    assert EventOk(d, x);
    assert LogOk(d, d.events[x].creator);
    var p := Position(d, d.events[x]);
    if p > 0 {
      assert d.logs[d.events[x].creator][p - 1] in d.events;
    }
  }

  lemma {:induction false} ReachTrans(d: Dag, x: Hash, y: Hash, z: Hash)
    requires WellFormed(d) && Reach(d, x, y) && Reach(d, y, z)
    ensures Reach(d, x, z)
    decreases Rank(d, x)
  {
    if x != y {
      Parents(d, x);
      var e := d.events[x];
      if Reach(d, e.selfParent, y) {
        ReachTrans(d, e.selfParent, y, z);
      } else {
        ReachTrans(d, e.otherParent, y, z);
      }
    }
  }

  /** Parent links go strictly back in time, so there are no cycles. */
  lemma {:induction false} ReachRank(d: Dag, x: Hash, y: Hash)
    requires WellFormed(d) && Reach(d, x, y) && x != y
    ensures x in d.events && Rank(d, y) < Rank(d, x)
    decreases Rank(d, x)
  {
    Parents(d, x);
    var e := d.events[x];
    var p := if Reach(d, e.selfParent, y) then e.selfParent else e.otherParent;
    if p != y {
      ReachRank(d, p, y);
    }
  }

  /** Whatever is reached from a stored event whose roots refer to nothing else is known. */
  lemma {:induction false} ReachKnown(d: Dag, x: Hash, y: Hash)
    requires Based(d) && Known(d, x) && Reach(d, x, y)
    ensures Known(d, y)
    decreases Rank(d, x)
  {
    if x != y {
      Parents(d, x);
      var e := d.events[x];
      if Reach(d, e.selfParent, y) {
        ReachKnown(d, e.selfParent, y);
      } else {
        assert d.roots[e.creator] == BaseRoot(e.creator);
        ReachKnown(d, e.otherParent, y);
      }
    }
  }

  /** One log entry per index: no two events of one participant share an index. */
  lemma {:induction false} NoFork(d: Dag, x: Hash, y: Hash)
    requires WellFormed(d) && x in d.events && y in d.events
    requires d.events[x].creator == d.events[y].creator && d.events[x].index == d.events[y].index
    ensures x == y
  {
    assert EventOk(d, x) && EventOk(d, y);
  }

  /** Down one participant's log, a larger index reaches every smaller one. */
  lemma {:induction false} SameCreatorReach(d: Dag, x: Hash, y: Hash)
    requires WellFormed(d) && x in d.events && Known(d, y)
    requires d.events[x].creator == CreatorOf(d, y)
    requires IndexOf(d, y) <= d.events[x].index
    ensures Reach(d, x, y)
    decreases Rank(d, x)
  {
    Parents(d, x);
    var sp := d.events[x].selfParent;
    if IndexOf(d, y) == d.events[x].index {
      RootIndexIsBelow(d, x);
      NoFork(d, x, y);
    } else if sp in d.events {
      SameCreatorReach(d, sp, y);
    } else {
      OnlyRootAtRootIndex(d, sp, y);
    }
  }

  lemma {:induction false} RootIndexIsBelow(d: Dag, x: Hash)
    requires WellFormed(d) && x in d.events
    ensures d.events[x].creator in d.roots
    ensures d.roots[d.events[x].creator].selfParent.index < d.events[x].index
  {
    assert EventOk(d, x);
  }

  lemma {:induction false} OnlyRootAtRootIndex(d: Dag, r: Hash, y: Hash)
    requires WellFormed(d) && r in d.rootOf && r !in d.events && Known(d, y)
    requires CreatorOf(d, r) == CreatorOf(d, y) && IndexOf(d, y) <= IndexOf(d, r)
    ensures r == y
  {
    if y in d.events {
      RootIndexIsBelow(d, y);
    }
  }

  lemma {:induction false} BaseRootKnown(d: Dag, c: Creator)
    requires Based(d) && c in d.roots
    ensures RootHash(c) in d.rootOf && RootHash(c) !in d.events && d.rootOf[RootHash(c)] == c
  {
    assert LogOk(d, c);
  }

  /** For two hashes of one participant, ancestry is comparison of indexes. */
  lemma {:induction false} SameCreatorIff(d: Dag, x: Hash, y: Hash)
    requires WellFormed(d) && x in d.events && Known(d, y)
    requires d.events[x].creator == CreatorOf(d, y)
    ensures Reach(d, x, y) <==> IndexOf(d, y) <= d.events[x].index
  {
    if IndexOf(d, y) <= d.events[x].index {
      SameCreatorReach(d, x, y);
    } else if Reach(d, x, y) {
      RootIndexIsBelow(d, x);
      SameCreatorReach(d, y, x);
      ReachRank(d, x, y);
      ReachRank(d, y, x);
    }
  }

  /** Ancestry of a shared hash is the same in both stores, whatever else they
      hold and in whatever order they took it in. */
  lemma {:induction false} ReachAgree(d1: Dag, d2: Dag, x: Hash, y: Hash)
    requires Based(d1) && Based(d2) && Agree(d1, d2)
    requires Known(d1, x) && Known(d2, x)
    ensures Reach(d1, x, y) <==> Reach(d2, x, y)
    ensures Reach(d1, x, y) ==> Known(d1, y) && Known(d2, y)
    decreases Rank(d1, x)
  {
    if x in d1.events {
      assert x in d2.events by { RootsAreNotEvents(d1, d2, x); }
      Parents(d1, x); Parents(d2, x);
      var e := d1.events[x];
      SharedRoots(d1, d2);
      SharedParent(d1, d2, x);
      ReachAgree(d1, d2, e.selfParent, y);
      if e.otherParent != NoHash {
        assert d1.roots[e.creator] == BaseRoot(e.creator);
        ReachAgree(d1, d2, e.otherParent, y);
      }
    } else {
      assert x !in d2.events by { if x in d2.events { RootsAreNotEvents(d2, d1, x); } }
    }
  }

  lemma {:induction false} SharedRoots(d1: Dag, d2: Dag)
    requires WellFormed(d1) && WellFormed(d2) && d1.roots == d2.roots
    ensures d1.rootOf == d2.rootOf
  {
    forall x | x in d1.rootOf ensures x in d2.rootOf && d1.rootOf[x] == d2.rootOf[x] {
      assert LogOk(d2, d1.rootOf[x]);
    }
    forall x | x in d2.rootOf ensures x in d1.rootOf {
      assert LogOk(d1, d2.rootOf[x]);
    }
  }

  lemma {:induction false} RootsAreNotEvents(d1: Dag, d2: Dag, x: Hash)
    requires WellFormed(d1) && WellFormed(d2) && d1.roots == d2.roots
    requires x in d1.events && Known(d2, x)
    ensures x in d2.events
  {
    assert x in d2.rootOf ==> d2.rootOf[x] in d1.roots && LogOk(d1, d2.rootOf[x]);
  }

  lemma {:induction false} SharedParent(d1: Dag, d2: Dag, x: Hash)
    requires Based(d1) && Based(d2) && Agree(d1, d2) && x in d1.events && x in d2.events
    ensures d1.events[x] == d2.events[x]
    ensures Known(d1, d1.events[x].selfParent) && Known(d2, d1.events[x].selfParent)
    ensures d1.events[x].otherParent != NoHash ==>
              d1.events[x].otherParent in d1.events && d1.events[x].otherParent in d2.events
  {
    Parents(d1, x); Parents(d2, x);
    assert d1.roots[d1.events[x].creator] == BaseRoot(d1.events[x].creator);
  }

  // ---------------------------------------------------------------- Lamport timestamps

  function Max(a: int, b: int): int { if a < b then b else a }

  /** One more than the larger of the parents' timestamps; a root supplies the
      timestamps of the parents it stands in for. */
  ghost function Lamport(d: Dag, x: Hash): int
    requires WellFormed(d) && Known(d, x)
    decreases Rank(d, x)
  {
    if x !in d.events then d.roots[d.rootOf[x]].selfParent.lamport
    else
      var e := d.events[x];
      Parents(d, x);
      var sp := Lamport(d, e.selfParent);
      1 + if e.otherParent == NoHash then sp
          else if e.otherParent in d.events then Max(sp, Lamport(d, e.otherParent))
          else Max(sp, d.roots[e.creator].others[x].lamport)
  }

  /** Time runs forward along parent links. */
  lemma {:induction false} ReachLamport(d: Dag, x: Hash, y: Hash)
    requires WellFormed(d) && Known(d, y) && Reach(d, x, y) && x != y
    requires y in d.events || Based(d)
    ensures Known(d, x) && Lamport(d, y) < Lamport(d, x)
    decreases Rank(d, x)
  {
    Parents(d, x);
    var e := d.events[x];
    var p := if Reach(d, e.selfParent, y) then e.selfParent else e.otherParent;
    assert Based(d) ==> d.roots[e.creator] == BaseRoot(e.creator);
    if p != y {
      ReachRank(d, p, y);
      ReachLamport(d, p, y);
    }
  }

  /** A shared hash has the same timestamp in both stores. */
  lemma {:induction false} LamportAgree(d1: Dag, d2: Dag, x: Hash)
    requires Based(d1) && Based(d2) && Agree(d1, d2) && Known(d1, x) && Known(d2, x)
    ensures Lamport(d1, x) == Lamport(d2, x)
    decreases Rank(d1, x)
  {
    SharedRoots(d1, d2);
    if x in d1.events {
      RootsAreNotEvents(d1, d2, x);
      SharedParent(d1, d2, x);
      Parents(d1, x); Parents(d2, x);
      LamportAgree(d1, d2, d1.events[x].selfParent);
      if d1.events[x].otherParent != NoHash {
        LamportAgree(d1, d2, d1.events[x].otherParent);
      }
    } else if x in d2.events {
      RootsAreNotEvents(d2, d1, x);
    }
  }

  // ---------------------------------------------------------------- insertion

  /** The hash a participant's next event must name as its self-parent. */
  function LastEventFrom(d: Dag, c: Creator): Hash
    requires c in d.roots && c in d.logs
  {
    if |d.logs[c]| == 0 then d.roots[c].selfParent.hash else d.logs[c][|d.logs[c]| - 1]
  }

  function LastIndexFrom(d: Dag, c: Creator): int
    requires c in d.roots && c in d.logs
  {
    d.roots[c].selfParent.index + |d.logs[c]|
  }

  predicate OtherParentFound(d: Dag, h: Hash, e: Event)
    requires e.creator in d.roots
  {
    var others := d.roots[e.creator].others;
    || e.otherParent == NoHash
    || e.otherParent in d.events
    || (h in others && others[h].hash == e.otherParent)
  }

  /** The last index in the participant's log, or -1 if the log is empty. */
  function LastLogged(d: Dag, c: Creator): int
    requires c in d.logs
  {
    var log := d.logs[c];
    if |log| == 0 || log[|log| - 1] !in d.events then -1 else d.events[log[|log| - 1]].index
  }

  /** How many of `n` entries the cached end of a log still holds: half of it goes whenever it is full. */
  function Held(n: nat, size: nat): (k: nat)
    ensures k <= n
  {
    if n == 0 then 0
    else
      var k := Held(n - 1, size);
      if k >= 2 * size then k - size + 1 else k + 1
  }

  /** The participant's log after the store has filed the event under its index: at the end, or
      over an entry that is still cached. A log that has not got to index 0 takes any index at the end. */
  function Logged(d: Dag, h: Hash, e: Event): Result<seq<Hash>>
    requires e.creator in d.logs
  {
    var log, last := d.logs[e.creator], LastLogged(d, e.creator);
    if h in d.events then Ok(log)
    else if 0 <= last && e.index > last + 1 then Err(SkippedIndex)
    else if last < 0 || e.index == last + 1 then Ok(log + [h])
    else if e.index <= last - Held(|log|, d.cacheSize) then Err(TooLate)
    else Ok(log[e.index - last + |log| - 1 := h])
  }

  lemma {:induction false} LogRefuses(d: Dag, h: Hash, e: Event)
    requires e.creator in d.logs && Logged(d, h, e).Err?
    ensures Logged(d, h, e).error in {SkippedIndex, TooLate}
  {
    hide Held, LastLogged;
  }

  function StoredIn(d: Dag, h: Hash, e: Event, log: seq<Hash>): Dag {
    d.(events := d.events[h := e],
       topo := d.topo[h := |d.order|],
       order := d.order + [h],
       logs := d.logs[e.creator := log])
  }

  /** The event is stored at the end of its creator's log. */
  function Stored(d: Dag, h: Hash, e: Event): Dag
    requires e.creator in d.logs
  {
    StoredIn(d, h, e, d.logs[e.creator] + [h])
  }

  /** Signature, then self-parent, then other-parent; then the store files the event, or refuses its index. */
  function Insert(d: Dag, h: Hash, e: Event): Result<Dag> {
    if !Verify(e) then Err(InvalidSignature)
    else if e.creator !in d.roots || e.creator !in d.logs then Err(UnknownParticipant)
    else if e.selfParent != LastEventFrom(d, e.creator) then Err(SelfParentNotLast)
    else if !OtherParentFound(d, h, e) then Err(OtherParentUnknown)
    else
      var log := Logged(d, h, e);
      if log.Err? then Err(log.error) else Ok(StoredIn(d, h, e, log.value))
  }

  /** What honest creators and hashing guarantee of an incoming event: its hash is
      new, nothing stored refers to it yet, and it carries the next index. */
  ghost predicate Fresh(d: Dag, h: Hash, e: Event) {
    && h.Digest? && h !in d.events && h !in d.rootOf && e.otherParent != h
    && (forall x :: x in d.events ==> d.events[x].otherParent != h)
    && (e.creator in d.roots && e.creator in d.logs ==> e.index == LastIndexFrom(d, e.creator) + 1)
  }

  /** An event with the next index goes to the end of the log. */
  lemma {:induction false} NextLogged(d: Dag, h: Hash, e: Event)
    requires WellFormed(d) && Fresh(d, h, e) && e.creator in d.roots && e.creator in d.logs
    ensures LastLogged(d, e.creator) == if d.logs[e.creator] == [] then -1 else LastIndexFrom(d, e.creator)
    ensures Logged(d, h, e) == Ok(d.logs[e.creator] + [h])
  {
    assert LogOk(d, e.creator);
  }

  lemma {:induction false} Appended(d: Dag, h: Hash, e: Event)
    requires WellFormed(d) && Fresh(d, h, e) && Insert(d, h, e).Ok?
    ensures e.creator in d.roots && e.creator in d.logs && Insert(d, h, e).value == Stored(d, h, e)
  {
    hide WellFormed, Fresh, LastEventFrom, OtherParentFound, Logged;
    NextLogged(d, h, e);
  }

  /** No fork gets in: a second event on the self-parent of a stored one is refused,
      and so is the stored one itself when it comes again. */
  lemma {:induction false} ForkRefused(d: Dag, x: Hash, h: Hash, e: Event)
    requires WellFormed(d) && x in d.events && e.selfParent == d.events[x].selfParent
    ensures Insert(d, h, e).Err?
  {
    Parents(d, x);
    if e.creator in d.roots && e.creator in d.logs && e.selfParent == LastEventFrom(d, e.creator) {
      LastIsLast(d, e.creator);
    }
  }

  lemma {:induction false} LastIsLast(d: Dag, c: Creator)
    requires WellFormed(d) && c in d.roots && c in d.logs
    ensures var last := LastEventFrom(d, c);
            && Known(d, last) && CreatorOf(d, last) == c && IndexOf(d, last) == LastIndexFrom(d, c)
            && forall x :: x in d.events && d.events[x].creator == c ==> d.events[x].index <= LastIndexFrom(d, c)
  {
    assert LogOk(d, c);
    forall x | x in d.events && d.events[x].creator == c ensures d.events[x].index <= LastIndexFrom(d, c) {
      assert EventOk(d, x);
    }
  }

  /** Insertion keeps the store well formed. */
  lemma {:induction false} InsertKeeps(d: Dag, h: Hash, e: Event)
    requires WellFormed(d) && Fresh(d, h, e) && Insert(d, h, e).Ok?
    ensures WellFormed(Insert(d, h, e).value)
    ensures SubDag(d, Insert(d, h, e).value)
  {
    hide EventOk, LogOk;
    EventsStayOk(d, h, e);
    LogsStayOk(d, h, e);
    OrderStaysOk(d, h, e);
  }

  lemma {:induction false} KeptHasNextIndex(d: Dag, h: Hash, e: Event)
    requires WellFormed(d) && Insert(d, h, e).Ok? && h !in d.events && WellFormed(Insert(d, h, e).value)
    ensures e.index == LastIndexFrom(d, e.creator) + 1
  {
    assert EventOk(Insert(d, h, e).value, h);
    assert LogOk(d, e.creator);
  }

  /** Of the new events that are let in, exactly those that carry the next index leave the store
      well formed. */
  lemma {:induction false} InsertKeepsIff(d: Dag, h: Hash, e: Event)
    requires WellFormed(d) && Insert(d, h, e).Ok?
    requires h.Digest? && h !in d.events && h !in d.rootOf && e.otherParent != h
    requires forall x :: x in d.events ==> d.events[x].otherParent != h
    ensures WellFormed(Insert(d, h, e).value) <==> e.index == LastIndexFrom(d, e.creator) + 1
  {
    if WellFormed(Insert(d, h, e).value) {
      KeptHasNextIndex(d, h, e);
    }
    if e.index == LastIndexFrom(d, e.creator) + 1 {
      assert Fresh(d, h, e);
      InsertKeeps(d, h, e);
    }
  }

  /** The others are let in while the log has not got to index 0, or in place of an event that is still cached. */
  lemma {:induction false} OtherIndexReplaces(d: Dag, h: Hash, e: Event)
    requires WellFormed(d) && Insert(d, h, e).Ok? && h !in d.events
    requires e.index != LastIndexFrom(d, e.creator) + 1 && 0 <= LastLogged(d, e.creator)
    ensures 0 <= Position(d, e) < |d.logs[e.creator]|
    ensures Insert(d, h, e).value == StoredIn(d, h, e, d.logs[e.creator][Position(d, e) := h])
  {
    assert LogOk(d, e.creator);
    hide Held, EventOk;
  }

  lemma {:induction false} EventsStayOk(d: Dag, h: Hash, e: Event)
    requires WellFormed(d) && Fresh(d, h, e) && Insert(d, h, e).Ok?
    ensures var d' := Insert(d, h, e).value; forall x :: x in d'.events ==> EventOk(d', x)
  {
    var d' := Insert(d, h, e).value;
    forall x | x in d'.events ensures EventOk(d', x) {
      if x == h { NewEventOk(d, h, e); } else { OldEventOk(d, h, e, x); }
    }
  }

  lemma {:induction false} LogsStayOk(d: Dag, h: Hash, e: Event)
    requires WellFormed(d) && Fresh(d, h, e) && Insert(d, h, e).Ok?
    ensures var d' := Insert(d, h, e).value; forall k :: k in d'.roots ==> LogOk(d', k)
  {
    var d' := Insert(d, h, e).value;
    forall k | k in d'.roots ensures LogOk(d', k) {
      LogStaysOk(d, h, e, k);
    }
  }

  lemma {:induction false} LogStaysOk(d: Dag, h: Hash, e: Event, k: Creator)
    requires WellFormed(d) && Fresh(d, h, e) && Insert(d, h, e).Ok? && k in d.roots
    ensures LogOk(Insert(d, h, e).value, k)
  {
    assert LogOk(d, k);
  }

  lemma {:induction false} OrderStaysOk(d: Dag, h: Hash, e: Event)
    requires WellFormed(d) && Fresh(d, h, e) && Insert(d, h, e).Ok?
    ensures var d' := Insert(d, h, e).value;
            forall i :: 0 <= i < |d'.order| ==> d'.order[i] in d'.events && d'.topo[d'.order[i]] == i
  {
  }

  lemma {:induction false} NewEventOk(d: Dag, h: Hash, e: Event)
    requires WellFormed(d) && Fresh(d, h, e) && Insert(d, h, e).Ok?
    ensures EventOk(Insert(d, h, e).value, h)
  {
    var d' := Insert(d, h, e).value;
    assert LogOk(d, e.creator);
    var n := |d.logs[e.creator]|;
    if n > 0 {
      assert d.logs[e.creator][n - 1] in d.events;
      assert EventOk(d, e.selfParent);
    }
    if e.otherParent in d.events {
      assert EventOk(d, e.otherParent);
    }
  }

  lemma {:induction false} OldEventOk(d: Dag, h: Hash, e: Event, x: Hash)
    requires WellFormed(d) && Fresh(d, h, e) && Insert(d, h, e).Ok? && x in d.events
    ensures EventOk(Insert(d, h, e).value, x)
  {
    Appended(d, h, e);
    assert EventOk(d, x);
  }

  /** What was known is untouched: ancestry and timestamps of old hashes stay the same. */
  lemma {:induction false} ReachGrows(d: Dag, d': Dag, x: Hash, y: Hash)
    requires Based(d) && Based(d') && SubDag(d, d') && Known(d, x)
    ensures Known(d', x)
    ensures Reach(d, x, y) <==> Reach(d', x, y)
    ensures Lamport(d, x) == Lamport(d', x)
  {
    SharedRoots(d, d');
    ReachAgree(d, d', x, y);
    LamportAgree(d, d', x);
  }
}
