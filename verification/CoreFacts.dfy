/** What the methods of Core rely on. */
module CoreFacts {
  import opened Dags
  import opened Sorting
  import opened Consensus
  import opened Gossip
  import opened Wire
  import opened Syncing

  // ---------------------------------------------------------------- collecting what another node lacks

  /** A participant's events after index `skip`; none of them has rolled out of the window. */
  function ParticipantEvents(d: Dag, c: Creator, skip: int): Result<seq<Hash>>
    requires c in d.logs
  {
    if skip > |d.logs[c]| - 1 then Ok([])
    else if skip + 1 < 0 then Err(TooLate)
    else Ok(d.logs[c][skip + 1..])
  }

  /** The events beyond `known` of the participants that are not in `rest`. */
  ghost function Lacking(d: Dag, known: map<Creator, int>, rest: set<Creator>): set<Hash> {
    set h | h in d.events && IsNewer(d.events[h], known) && d.events[h].creator !in rest
  }

  lemma {:induction false} LackingNone(d: Dag, known: map<Creator, int>)
    ensures Lists([], Lacking(d, known, known.Keys))
  {
  }

  lemma {:induction false} LackingNext(d: Dag, known: map<Creator, int>, rest: set<Creator>, c: Creator,
                                       list: seq<Hash>)
    requires Based(d) && c in rest && rest <= known.Keys && Lists(list, Lacking(d, known, rest))
    ensures c !in d.roots ==> Lists(list, Lacking(d, known, rest - {c}))
    ensures c in d.roots ==> c in d.logs
    ensures c in d.roots && known[c] >= -1 ==>
              && ParticipantEvents(d, c, known[c]).Ok?
              && Lists(list + ParticipantEvents(d, c, known[c]).value, Lacking(d, known, rest - {c}))
  {
    if c !in d.roots {
      forall h | h in d.events ensures d.events[h].creator != c {
        InLog(d, h);
      }
      hide WellFormed;
      assert Lacking(d, known, rest - {c}) == Lacking(d, known, rest);
    } else {
      KnownIs(d, c);
      hide WellFormed;
      if known[c] >= -1 {
        LackingOf(d, known, rest, c, list);
      }
    }
  }

  lemma {:induction false} LackingOf(d: Dag, known: map<Creator, int>, rest: set<Creator>, c: Creator, list: seq<Hash>)
    requires Based(d) && c in rest && rest <= known.Keys && Lists(list, Lacking(d, known, rest)) && c in d.roots
    requires c in d.logs && known[c] >= -1
    ensures Lists(list + ParticipantEvents(d, c, known[c]).value, Lacking(d, known, rest - {c}))
  {
    hide WellFormed;
    var part := ParticipantEvents(d, c, known[c]).value;
    var own := set h | h in d.events && d.events[h].creator == c && d.events[h].index > known[c];
    forall h ensures h in part <==> h in own {
      PartIs(d, c, known[c], h);
    }
    forall i, j | 0 <= i < j < |part| ensures part[i] != part[j] {
      LogEntry(d, c, known[c] + 1 + i);
      LogEntry(d, c, known[c] + 1 + j);
    }
    ListsJoin(list, Lacking(d, known, rest), part, own);
    assert Lacking(d, known, rest - {c}) == Lacking(d, known, rest) + own;
  }

  lemma {:induction false} PartIs(d: Dag, c: Creator, skip: int, h: Hash)
    requires Based(d) && c in d.roots && c in d.logs && skip >= -1
    ensures h in ParticipantEvents(d, c, skip).value <==>
              h in d.events && d.events[h].creator == c && d.events[h].index > skip
  {
    hide WellFormed;
    var part := ParticipantEvents(d, c, skip).value;
    if h in part {
      var i :| 0 <= i < |part| && part[i] == h;
      LogEntry(d, c, skip + 1 + i);
    }
    if h in d.events && d.events[h].creator == c && d.events[h].index > skip {
      InLog(d, h);
      assert part[d.events[h].index - skip - 1] == h;
    }
  }

  // ---------------------------------------------------------------- in topological order

  function TopoKeys(d: Dag): Keys {
    map h | h in d.topo :: (d.topo[h] as int, 0)
  }

  /** EventDiff lists exactly the lacking events, oldest first. */
  lemma {:induction false} DiffListed(d: Dag, known: map<Creator, int>, k: nat)
    requires Based(d) && AllStored(d, d.order) && k <= |d.order|
    ensures var list := Newer(d.events, known, d.order[..k]);
            && (forall h :: h in list <==> h in d.topo && h in d.events && d.topo[h] < k && IsNewer(d.events[h], known))
            && (forall i, j :: 0 <= i < j < |list| ==>
                 list[i] in d.topo && list[j] in d.topo && d.topo[list[i]] < d.topo[list[j]])
  {
    hide Based, IsNewer, Newer;
    NewerNone(d, known);
    if k > 0 {
      DiffListed(d, known, k - 1);
      OrderAt(d, k - 1);
      NewerNext(d, known, k);
    }
  }

  lemma {:induction false} NewerNone(d: Dag, known: map<Creator, int>)
    ensures Newer(d.events, known, d.order[..0]) == []
  {
  }

  lemma {:induction false} NewerNext(d: Dag, known: map<Creator, int>, k: nat)
    requires AllStored(d, d.order) && 0 < k <= |d.order|
    ensures Newer(d.events, known, d.order[..k]) ==
            Newer(d.events, known, d.order[..k - 1]) +
            if IsNewer(d.events[d.order[k - 1]], known) then [d.order[k - 1]] else []
  {
    assert d.order[..k][..k - 1] == d.order[..k - 1];
  }

  /** Sorting the collected events by topological index gives EventDiff. */
  lemma {:induction false} SortedIsDiff(d: Dag, known: map<Creator, int>, list: seq<Hash>)
    requires Based(d) && AllStored(d, d.order) && Lists(list, Lacking(d, known, {}))
    ensures Keyed(list, TopoKeys(d)) && StableSort(list, TopoKeys(d)) == EventDiff(d, known)
    ensures |list| == |EventDiff(d, known)|
  {
    hide WellFormed, StableSort, Newer, Less;
    var keys, diff := TopoKeys(d), EventDiff(d, known);
    DiffIs(d, known);
    LackingKeyed(d, known, list);
    StableSortSorted(list, keys);
    var sorted := StableSort(list, keys);
    SortedLists(list, sorted, Lacking(d, known, {}));
    ListsPermute(sorted, diff, Lacking(d, known, {}));
    TopoKeysDiffer(d, sorted);
    SortedUnique(sorted, diff, keys);
    SameElements(sorted, list);
  }

  lemma {:induction false} DiffIs(d: Dag, known: map<Creator, int>)
    requires Based(d) && AllStored(d, d.order)
    ensures var diff := EventDiff(d, known);
            Lists(diff, Lacking(d, known, {})) && Keyed(diff, TopoKeys(d)) && Sorted(diff, TopoKeys(d))
  {
    hide WellFormed, Newer;
    DiffListed(d, known, |d.order|);
    assert d.order[..|d.order|] == d.order;
    forall h | h in d.events ensures h in d.topo && d.topo[h] < |d.order| {
      InLog(d, h);
    }
    var diff, keys := EventDiff(d, known), TopoKeys(d);
    forall i | 0 <= i < |diff| ensures diff[i] in keys && keys[diff[i]] == (d.topo[diff[i]] as int, 0) {
      assert diff[i] in diff;
    }
    forall i, j | 0 <= i < j < |diff| ensures diff[i] != diff[j] && !Less(keys[diff[j]], keys[diff[i]]) {
      assert d.topo[diff[i]] < d.topo[diff[j]];
    }
    forall h ensures h in diff <==> h in Lacking(d, known, {}) {
    }
  }

  lemma {:induction false} LackingKeyed(d: Dag, known: map<Creator, int>, list: seq<Hash>)
    requires Based(d) && Lists(list, Lacking(d, known, {}))
    ensures Keyed(list, TopoKeys(d))
  {
    forall i | 0 <= i < |list| ensures list[i] in d.topo {
      assert list[i] in list;
      InLog(d, list[i]);
    }
  }

  lemma {:induction false} TopoKeysDiffer(d: Dag, list: seq<Hash>)
    requires Based(d)
    ensures KeysDiffer(list, TopoKeys(d))
  {
    hide EventOk, LogOk;
    forall x, y | x in d.topo && y in d.topo && d.topo[x] == d.topo[y] ensures x == y {
      OrderOf(d, x);
      OrderOf(d, y);
    }
  }

  lemma {:induction false} OrderOf(d: Dag, x: Hash)
    requires WellFormed(d) && x in d.topo
    ensures d.topo[x] < |d.order| && d.order[d.topo[x]] == x
  {
    assert EventOk(d, x);
  }

  // ---------------------------------------------------------------- counting by index

  /** A known map as the index arithmetic reads it: a missing participant counts as index 0. */
  function Filled(mine: map<Creator, int>, known: map<Creator, int>): map<Creator, int> {
    map c | c in mine :: if c in known then known[c] else 0
  }

  lemma {:induction false} PartSize(d: Dag, c: Creator, skip: int)
    requires Based(d) && c in d.roots && skip >= -1
    ensures c in d.logs && d.logs.Keys == d.roots.Keys && ParticipantEvents(d, c, skip).Ok?
    ensures |ParticipantEvents(d, c, skip).value| == if KnownEvents(d)[c] > skip then KnownEvents(d)[c] - skip else 0
  {
    KnownIs(d, c);
    hide WellFormed;
  }

  // ---------------------------------------------------------------- the node's own events

  const MAX_TRANSACTIONS_IN_EVENT: nat := 16384

  /** The event a node makes of its pools; its flag table is those of both parents together. */
  function SelfEvent(d: Dag, id: Creator, index: int, head: Hash, otherHead: Hash, batch: seq<Transaction>,
                     internals: seq<Transaction>, sigs: seq<BlockSignature>, sign: Event -> int): (e: Event)
  {
    var own := if head in d.events then d.events[head].flagTable else {head};
    var table := if otherHead in d.events then d.events[otherHead].flagTable + own else own;
    var e := Event(id, index, head, otherHead, batch, false, internals, sigs, Signature(0, true), table, []);
    e.(signature := Signature(sign(e), true))
  }

  /** A new event survives the wire: the flag table of the first holds the root it starts from,
      later ones inherit their parent's, and the block signatures are the node's own. */
  lemma {:induction false} SelfEventSendable(d: Dag, id: Creator, index: int, head: Hash, otherHead: Hash,
                                             batch: seq<Transaction>, internals: seq<Transaction>,
                                             sigs: seq<BlockSignature>, sign: Event -> int)
    requires head in d.events ==> d.events[head].flagTable != {}
    requires OwnPool(sigs, id)
    ensures var e := SelfEvent(d, id, index, head, otherHead, batch, internals, sigs, sign);
            Verify(e) && SurvivesWire(e)
  {
    var own := if head in d.events then d.events[head].flagTable else {head};
    var w :| w in own;
    assert w in SelfEvent(d, id, index, head, otherHead, batch, internals, sigs, sign).flagTable;
  }

  ghost predicate OwnPool(sigs: seq<BlockSignature>, id: Creator) {
    forall i :: 0 <= i < |sigs| ==> sigs[i].validator == id
  }

  /** What comes in from the wire can go out again. */
  lemma {:induction false} ReadSurvives(d: Dag, w: WireEvent)
    requires d.logs.Keys == d.roots.Keys && ReadBased(d, w).Ok?
    ensures SurvivesWire(ReadBased(d, w).value)
  {
    hide ReadSelfParent, ParticipantEvent;
  }

  /** The transactions of the node's own events, in chain order, followed by the pool, are what was submitted. */
  ghost predicate Conserves(d: Dag, id: Creator, pool: seq<Transaction>, submitted: seq<Transaction>) {
    && id in d.logs && AllStored(d, d.logs[id])
    && Payload(d, d.logs[id]) + pool == submitted
    && forall i :: 0 <= i < |d.logs[id]| ==> |d.events[d.logs[id][i]].transactions| <= MAX_TRANSACTIONS_IN_EVENT
  }

  lemma {:induction false} PayloadSame(d: Dag, d': Dag, list: seq<Hash>)
    requires AllStored(d, list) && forall h :: h in d.events ==> h in d'.events && d'.events[h] == d.events[h]
    ensures AllStored(d', list) && Payload(d', list) == Payload(d, list)
  {
    if list != [] {
      PayloadSame(d, d', list[..|list| - 1]);
    }
  }

  lemma {:induction false} PoolDrained(d: Dag, h: Hash, e: Event, pool: seq<Transaction>, n: nat,
                                       submitted: seq<Transaction>)
    requires WellFormed(d) && Fresh(d, h, e) && Insert(d, h, e).Ok? && Conserves(d, e.creator, pool, submitted)
    requires n <= |pool| && n <= MAX_TRANSACTIONS_IN_EVENT && e.transactions == pool[..n]
    ensures Conserves(Insert(d, h, e).value, e.creator, pool[n..], submitted)
  {
    hide WellFormed, Fresh, Insert, Stored, Payload;
    Appended(d, h, e);
    LogAfter(d, h, e);
    var d' := Stored(d, h, e);
    var log := d.logs[e.creator];
    PayloadSame(d, d', log);
    PayloadLast(d', log, h);
    assert pool == pool[..n] + pool[n..];
  }

  lemma {:induction false} PayloadLast(d: Dag, list: seq<Hash>, h: Hash)
    requires AllStored(d, list) && h in d.events
    ensures AllStored(d, list + [h]) && Payload(d, list + [h]) == Payload(d, list) + d.events[h].transactions
  {
    assert (list + [h])[..|list|] == list;
  }

  lemma {:induction false} LogAfter(d: Dag, h: Hash, e: Event)
    requires Fresh(d, h, e) && e.creator in d.logs
    ensures e.creator in Stored(d, h, e).logs && Stored(d, h, e).logs[e.creator] == d.logs[e.creator] + [h]
    ensures h !in d.events && Stored(d, h, e).events == d.events[h := e]
  {
  }

  lemma {:induction false} OthersConserve(d: Dag, h: Hash, e: Event, id: Creator, pool: seq<Transaction>,
                                          submitted: seq<Transaction>)
    requires Fresh(d, h, e) && Insert(d, h, e).Ok? && Conserves(d, id, pool, submitted) && e.creator != id
    ensures Conserves(Insert(d, h, e).value, id, pool, submitted)
  {
    PayloadSame(d, Insert(d, h, e).value, d.logs[id]);
  }

  // ---------------------------------------------------------------- names and heads

  /** The events have the same body, which is all that is hashed: not the signature, the flag
      table or the witness proof. */
  predicate SameBody(e: Event, f: Event) {
    && e.creator == f.creator && e.index == f.index && e.selfParent == f.selfParent && e.otherParent == f.otherParent
    && e.transactions == f.transactions && e.internalTransactions == f.internalTransactions
    && e.blockSignatures == f.blockSignatures
  }

  /** Hashes name bodies, and none is a root's. */
  ghost predicate NamesBodies(hash: Event -> Hash) {
    && (forall e :: hash(e).Digest?)
    && (forall e, f :: hash(e) == hash(f) <==> SameBody(e, f))
  }

  /** The store goes by the hashes, and whatever it holds survives the wire. */
  ghost predicate Shareable(hash: Event -> Hash, d: Dag) {
    NamesBodies(hash) && Sendable(hash, d)
  }

  /** If the node's head is its last event, its counter is that event's index. */
  ghost predicate HeadIs(d: Dag, id: Creator, head: Hash, seqNo: int) {
    id in d.roots && id in d.logs && head == LastEventFrom(d, id) ==> seqNo == LastIndexFrom(d, id)
  }

  lemma {:induction false} ShareableStays(hash: Event -> Hash, d: Dag, e: Event)
    requires Shareable(hash, d) && Insert(d, hash(e), e).Ok? && SurvivesWire(e)
    ensures Shareable(hash, Insert(d, hash(e), e).value)
  {
    hide NamesBodies, OwnSignatures;
  }

  lemma {:induction false} HeadStays(d: Dag, h: Hash, e: Event, id: Creator, head: Hash, seqNo: int)
    requires WellFormed(d) && Insert(d, h, e).Ok? && Fresh(d, h, e) && HeadIs(d, id, head, seqNo)
    ensures e.creator != id ==> HeadIs(Insert(d, h, e).value, id, head, seqNo)
    ensures e.creator == id ==> HeadIs(Insert(d, h, e).value, id, h, e.index)
  {
    Appended(d, h, e);
    hide WellFormed, Logged;
  }

  /** An event a node makes on its own head is one nothing has heard of. */
  lemma {:induction false} SelfFresh(hash: Event -> Hash, d: Dag, e: Event, seqNo: int)
    requires Based(d) && Shareable(hash, d) && Insert(d, hash(e), e).Ok? && HeadIs(d, e.creator, e.selfParent, seqNo)
    requires e.index == seqNo + 1
    ensures Fresh(d, hash(e), e)
  {
    var h := hash(e);
    LastOfLog(d, e.creator);
    RootsAreHashes(d);
    hide WellFormed;
    if h in d.events {
      InLog(d, h);
    }
    forall x | x in d.events ensures d.events[x].otherParent != h {
      InLog(d, x);
    }
    OthersNone(d, e.creator);
  }

  lemma {:induction false} OthersNone(d: Dag, c: Creator)
    requires Based(d) && c in d.roots
    ensures d.roots[c].others == map[]
  {
    assert d.roots[c] == BaseRoot(c);
  }
}
