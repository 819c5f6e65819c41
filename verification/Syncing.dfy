/** Taking in events from the wire, and what that makes of another node's answer. */
module Syncing {
  import opened Dags
  import opened Gossip
  import opened Wire

  /** The graph so far, the first error if there was one, and the last event read. */
  datatype Progress = Progress(dag: Dag, error: Option<Error>, last: Hash)

  /** The store keeps one log for each root. */
  ghost predicate LogPerRoot(d: Dag) { d.logs.Keys == d.roots.Keys }

  /** One incoming event: it is rebuilt, and inserted unless its index was known at the start. */
  function Received(hash: Event -> Hash, p: Progress, mine: map<Creator, int>, w: WireEvent): (p': Progress)
    requires LogPerRoot(p.dag)
    ensures LogPerRoot(p'.dag)
  {
    if p.error.Some? then p
    else
      var r := ReadBased(p.dag, w);
      if r.Err? then p.(error := Some(r.error))
      else if !IsNewer(r.value, mine) then p.(last := hash(r.value))
      else
        var inserted := Insert(p.dag, hash(r.value), r.value);
        if inserted.Err? then p.(error := Some(inserted.error))
        else Progress(inserted.value, None, hash(r.value))
  }

  function ReceiveAll(hash: Event -> Hash, d: Dag, mine: map<Creator, int>, wires: seq<WireEvent>): (p: Progress)
    requires LogPerRoot(d)
    ensures LogPerRoot(p.dag)
  {
    if wires == [] then Progress(d, None, NoHash)
    else
      var n := |wires| - 1;
      Received(hash, ReceiveAll(hash, d, mine, wires[..n]), mine, wires[n])
  }

  /** What honest creators and hashing guarantee of the next incoming event. */
  ghost predicate Orderly(hash: Event -> Hash, p: Progress, mine: map<Creator, int>, w: WireEvent)
    requires LogPerRoot(p.dag)
  {
    p.error == None && ReadBased(p.dag, w).Ok? ==>
      var e := ReadBased(p.dag, w).value;
      IsNewer(e, mine) && Insert(p.dag, hash(e), e).Ok? ==> Fresh(p.dag, hash(e), e)
  }

  ghost predicate AllOrderly(hash: Event -> Hash, d: Dag, mine: map<Creator, int>, wires: seq<WireEvent>)
    requires LogPerRoot(d)
  {
    forall k :: 0 <= k < |wires| ==> Orderly(hash, ReceiveAll(hash, d, mine, wires[..k]), mine, wires[k])
  }

  /** The step from the first `k` events to the first `k + 1`. */
  lemma {:induction false} ReceiveNext(hash: Event -> Hash, d: Dag, mine: map<Creator, int>, wires: seq<WireEvent>,
                                       k: nat)
    requires LogPerRoot(d) && k < |wires| && AllOrderly(hash, d, mine, wires)
    requires ReceiveAll(hash, d, mine, wires[..k]).error == None
    ensures var p := ReceiveAll(hash, d, mine, wires[..k]);
            && Orderly(hash, Progress(p.dag, None, NoHash), mine, wires[k])
            && var p' := Received(hash, Progress(p.dag, None, NoHash), mine, wires[k]);
               ReceiveAll(hash, d, mine, wires[..k + 1]) == if p'.error == None then p' else p'.(last := p.last)
  {
    hide Insert, Fresh, ReadBased;
    assert wires[..k + 1][..k] == wires[..k];
    assert Orderly(hash, ReceiveAll(hash, d, mine, wires[..k]), mine, wires[k]);
  }

  /** After an error nothing more happens. */
  lemma {:induction false} ReceiveStops(hash: Event -> Hash, d: Dag, mine: map<Creator, int>, wires: seq<WireEvent>,
                                        k: nat, n: nat)
    requires LogPerRoot(d) && k <= n <= |wires| && ReceiveAll(hash, d, mine, wires[..k]).error.Some?
    ensures ReceiveAll(hash, d, mine, wires[..n]) == ReceiveAll(hash, d, mine, wires[..k])
    ensures n == |wires| ==> wires[..n] == wires
    decreases n - k
  {
    hide Insert, ReadBased;
    if k < n {
      ReceiveStops(hash, d, mine, wires, k, n - 1);
      assert wires[..n][..n - 1] == wires[..n - 1];
    }
  }

  // ---------------------------------------------------------------- another node's answer

  /** `s` names its events by `hash`, and each survives the wire. */
  ghost predicate Sendable(hash: Event -> Hash, s: Dag) {
    forall h :: h in s.events ==> hash(s.events[h]) == h && SurvivesWire(s.events[h])
  }

  /** The listed events of `s` in wire form. */
  ghost function Wires(s: Dag, list: seq<Hash>): (ws: seq<WireEvent>)
    requires Based(s) && AllStored(s, list)
    ensures |ws| == |list|
  {
    if list == [] then []
    else
      var n := |list| - 1;
      StoredParents(s, list[n]);
      Wires(s, list[..n]) + [ToWire(s.events[list[n]], InfoOf(s, s.events[list[n]]))]
  }

  /** When its turn comes, an event's parents are there. */
  lemma {:induction false} ParentsMerged(d: Dag, s: Dag, k: nat, d': Dag)
    requires Compatible(d, s) && Merged(d, s, k, d') && k < |s.order| && s.order[k] in s.events
    ensures ParentsIn(d', s.events[s.order[k]]) && Agree(s, d') && LogPerRoot(d')
  {
    var h := s.order[k];
    var e := s.events[h];
    InLog(s, h);
    OrderAt(s, k);
    StoredParents(s, h);
    hide EventOk, LogOk;
  }

  /** Reading it back gives the event itself. */
  lemma {:induction false} ReadBack(hash: Event -> Hash, d: Dag, s: Dag, k: nat, d': Dag)
    requires Compatible(d, s) && Merged(d, s, k, d') && k < |s.order| && s.order[k] in s.events && Sendable(hash, s)
    ensures Based(s) && ParentsIn(s, s.events[s.order[k]]) && LogPerRoot(d')
    ensures ReadBased(d', ToWire(s.events[s.order[k]], InfoOf(s, s.events[s.order[k]]))) == Ok(s.events[s.order[k]])
  {
    hide WellFormed, ReadBased, Reads, Merged;
    var e := s.events[s.order[k]];
    ParentsMerged(d, s, k, d');
    StoredParents(s, s.order[k]);
    var w := ToWire(e, InfoOf(s, e));
    ReadsOnBase(d', w, ReadBased(d', w));
    WireRoundTrip(s, d', e, ReadBased(d', w));
  }

  /** One event of the answer: it is read back, taken in if it is new, and passed over if not. */
  lemma {:induction false} ReceivedIs(hash: Event -> Hash, d: Dag, s: Dag, k: nat, p: Progress)
    requires Compatible(d, s) && Merged(d, s, k, p.dag) && k < |s.order| && s.order[k] in s.events && Sendable(hash, s)
    requires p.error == None && LogPerRoot(p.dag)
    requires LogPerRoot(d)
    ensures Based(s) && ParentsIn(s, s.events[s.order[k]])
    ensures var e := s.events[s.order[k]];
            var w := ToWire(e, InfoOf(s, e));
            var p' := Received(hash, p, KnownEvents(d), w);
            && p'.error == None && p'.last == s.order[k] && Merged(d, s, k + 1, p'.dag)
            && (if IsNewer(e, KnownEvents(d)) then Insert(p.dag, s.order[k], e) == Ok(p'.dag) else p'.dag == p.dag)
            && Orderly(hash, p, KnownEvents(d), w)
  {
    hide WellFormed, Merged, Insert, Fresh, ReadBased, KnownEvents, InfoOf, ToWire, ParentsIn, Compatible;
    ReadBack(hash, d, s, k, p.dag);
    MergedStep(d, s, k, p.dag);
    var e := s.events[s.order[k]];
    CompatibleParts(d, s, s.order[k]);
    if IsNewer(e, KnownEvents(d)) {
      KnownIs(d, e.creator);
      NextIsFresh(d, s, k, p.dag);
    }
  }

  /** The last hash of a list, if there is one. */
  function LastHash(list: seq<Hash>): Hash {
    if list == [] then NoHash else list[|list| - 1]
  }

  /** Receiving the first part of an answer from the wire is taking those events in. */
  ghost predicate ReceivesAs(hash: Event -> Hash, d: Dag, s: Dag, list: seq<Hash>, d': Dag)
    requires Based(s) && AllStored(s, list) && LogPerRoot(d)
  {
    && ReceiveAll(hash, d, KnownEvents(d), Wires(s, list)) == Progress(d', None, LastHash(list))
    && AllOrderly(hash, d, KnownEvents(d), Wires(s, list))
  }

  lemma {:induction false} WiresNext(s: Dag, list: seq<Hash>, h: Hash)
    requires Based(s) && AllStored(s, list) && h in s.events && ParentsIn(s, s.events[h])
    ensures Wires(s, list + [h]) == Wires(s, list) + [ToWire(s.events[h], InfoOf(s, s.events[h]))]
  {
    hide Based, ToWire, InfoOf;
    assert (list + [h])[..|list|] == list;
  }

  lemma {:induction false} ReceivesNext(hash: Event -> Hash, d: Dag, s: Dag, list: seq<Hash>, h: Hash, d': Dag,
                                        d'': Dag)
    requires Based(s) && AllStored(s, list) && LogPerRoot(d) && LogPerRoot(d') && h in s.events
    requires ParentsIn(s, s.events[h])
    requires ReceivesAs(hash, d, s, list, d')
    requires var w := ToWire(s.events[h], InfoOf(s, s.events[h]));
             var p := Progress(d', None, LastHash(list));
             Received(hash, p, KnownEvents(d), w) == Progress(d'', None, h) && Orderly(hash, p, KnownEvents(d), w)
    ensures ReceivesAs(hash, d, s, list + [h], d'')
  {
    hide Based, ToWire, Received, Orderly, KnownEvents, Wires;
    WiresNext(s, list, h);
    var ws, w := Wires(s, list), ToWire(s.events[h], InfoOf(s, s.events[h]));
    var ws' := ws + [w];
    assert ws'[..|ws|] == ws;
    forall k | 0 <= k < |ws'|
      ensures Orderly(hash, ReceiveAll(hash, d, KnownEvents(d), ws'[..k]), KnownEvents(d), ws'[k])
    {
      if k < |ws| {
        assert ws'[..k] == ws[..k];
        assert Orderly(hash, ReceiveAll(hash, d, KnownEvents(d), ws[..k]), KnownEvents(d), ws[k]);
      }
    }
  }

  lemma {:induction false} NewerIn(s: Dag, known: map<Creator, int>, k: nat)
    requires AllStored(s, s.order) && k <= |s.order|
    ensures AllStored(s, Newer(s.events, known, s.order[..k]))
  {
    if k > 0 {
      NewerIn(s, known, k - 1);
      assert s.order[..k][..k - 1] == s.order[..k - 1];
    }
  }

  /** The events among the first `k` that `known` does not cover are received as they are taken in. */
  ghost predicate ReceivedTo(hash: Event -> Hash, d: Dag, s: Dag, known: map<Creator, int>, k: nat)
    requires Based(s) && AllStored(s, s.order) && LogPerRoot(d) && k <= |s.order|
  {
    && AllStored(s, Newer(s.events, known, s.order[..k]))
    && Take(d, s.events, KnownEvents(d), s.order[..k]).Ok?
    && ReceivesAs(hash, d, s, Newer(s.events, known, s.order[..k]),
         Take(d, s.events, KnownEvents(d), s.order[..k]).value)
  }

  lemma {:induction false} ReceivesFirst(hash: Event -> Hash, d: Dag, s: Dag, known: map<Creator, int>, k: nat)
    requires Compatible(d, s) && AllStored(s, s.order) && LogPerRoot(d) && k <= |s.order|
    requires Covered(known, KnownEvents(d)) && Sendable(hash, s)
    ensures Based(s) && ReceivedTo(hash, d, s, known, k)
  {
    hide WellFormed, Merged, Insert, KnownEvents, Sendable, ReceivesAs, Covered, IsNewer;
    assert Based(s);
    hide Compatible;
    TakeMerges(d, s, k);
    NewerIn(s, known, k);
    if k == 0 {
      ReceivesNone(hash, d, s);
    } else {
      ReceivesFirst(hash, d, s, known, k - 1);
      assert s.order[..k][..k - 1] == s.order[..k - 1];
      hide Take, Newer, ReceivedTo;
      ReceivesStep(hash, d, s, known, k - 1);
    }
  }

  lemma {:induction false} ReceivesNone(hash: Event -> Hash, d: Dag, s: Dag)
    requires Based(s) && LogPerRoot(d)
    ensures ReceivesAs(hash, d, s, [], d)
  {
    hide WellFormed;
  }

  lemma {:induction false} ReceivesStep(hash: Event -> Hash, d: Dag, s: Dag, known: map<Creator, int>, k: nat)
    requires Compatible(d, s) && Based(s) && AllStored(s, s.order) && LogPerRoot(d) && k < |s.order|
    requires Covered(known, KnownEvents(d)) && Sendable(hash, s)
    requires ReceivedTo(hash, d, s, known, k)
    ensures ReceivedTo(hash, d, s, known, k + 1)
  {
    hide WellFormed, Merged, Insert, KnownEvents, Sendable, Compatible, ReceivesAs, Received, Orderly;
    TakeMerges(d, s, k);
    TakeMerges(d, s, k + 1);
    NewerIn(s, known, k + 1);
    assert s.order[..k + 1][..k] == s.order[..k];
    var h, e := s.order[k], s.events[s.order[k]];
    var list, d' := Newer(s.events, known, s.order[..k]), Take(d, s.events, KnownEvents(d), s.order[..k]).value;
    if IsNewer(e, known) {
      ParentsMerged(d, s, k, d');
      ReceivedIs(hash, d, s, k, Progress(d', None, LastHash(list)));
      var w := ToWire(e, InfoOf(s, e));
      var p' := Received(hash, Progress(d', None, LastHash(list)), KnownEvents(d), w);
      ReceivesNext(hash, d, s, list, h, d', p'.dag);
    } else {
      assert list + [] == list;
    }
  }

  /** The whole of one exchange over the wire: a node that receives another's answer in
      wire form takes in exactly what that node held, without error, and remembers
      the last event of the answer as the other's head. */
  lemma {:induction false} SyncOfAnswer(hash: Event -> Hash, d: Dag, s: Dag, known: map<Creator, int>)
    requires Compatible(d, s) && AllStored(s, s.order) && LogPerRoot(d) && LogPerRoot(s)
    requires Covered(known, KnownEvents(d)) && Sendable(hash, s)
    ensures Based(s) && AllStored(s, EventDiff(s, known))
    ensures var wires := Wires(s, EventDiff(s, known));
            var p := ReceiveAll(hash, d, KnownEvents(d), wires);
            && p.error == None && Union(d, s, p.dag) && p.last == LastHash(EventDiff(s, known))
            && AllOrderly(hash, d, KnownEvents(d), wires)
  {
    assert s.order[..|s.order|] == s.order;
    hide WellFormed, Merged, Insert, Sendable, Take, Newer, Union, KnownEvents, Compatible;
    ReceivesFirst(hash, d, s, known, |s.order|);
    TakeMerges(d, s, |s.order|);
    UnionMerged(d, s, Take(d, s.events, KnownEvents(d), s.order).value);
  }
}
