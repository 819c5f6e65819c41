/** The Core object: gossip with other nodes, the pools, and the node's own events. */
module Cores {
  import opened Dags
  import opened Sorting
  import opened Consensus
  import opened ConsensusInsert
  import opened ConsensusPasses
  import opened Gossip
  import opened Wire
  import opened Syncing
  import opened CoreFacts
  import opened PosetFacts
  import opened FrameBuild
  import opened Posets

  class Core {
    const id: Creator
    const hash: Event -> Hash      // Event.Hex
    const sign: Event -> int       // the R half of the signature the node's key makes
    const poset: Poset

    var head: Hash
    var seqNo: int
    var transactionPool: seq<Transaction>
    var internalTransactionPool: seq<Transaction>
    var blockSignaturePool: seq<BlockSignature>

    ghost var submitted: seq<Transaction>   // everything ever passed to AddTransactions

    /** True between any two calls. */
    ghost predicate Ready()
      reads this`head, this`seqNo, this`blockSignaturePool, poset
    {
      poset.Valid() && Shareable(hash, poset.dag) && HeadIs(poset.dag, id, head, seqNo)
        && OwnPool(blockSignaturePool, id)
    }

    lemma {:induction false} ReadyParts()
      requires Ready()
      ensures Based(poset.dag) && Shareable(hash, poset.dag) && HeadIs(poset.dag, id, head, seqNo)
      ensures OwnPool(blockSignaturePool, id)
    {
      hide Sound, Rooting, Poset.CachesOk, Shareable, HeadIs, OwnPool;
      SoundParts(poset.Abs());
    }

    lemma {:induction false} GraphParts()
      requires poset.Valid()
      ensures Based(poset.dag) && AllStored(poset.dag, poset.dag.order) && poset.dag.logs.Keys == poset.dag.roots.Keys
    {
      hide Sound, Rooting, Poset.CachesOk;
      SoundParts(poset.Abs());
      OrderStored(poset.dag);
    }

    ghost predicate Conserved()
      reads this`transactionPool, this`submitted, poset`dag
    {
      Conserves(poset.dag, id, transactionPool, submitted)
    }

    constructor (id: Creator, participants: set<Creator>, cacheSize: nat, hash: Event -> Hash, sign: Event -> int)
      ensures this.id == id && this.hash == hash && this.sign == sign && fresh(poset)
      ensures poset.Valid() && poset.Abs() == Initial(participants, cacheSize)
      ensures head == NoHash && seqNo == -1 && transactionPool == [] && internalTransactionPool == []
      ensures blockSignaturePool == []
      ensures NamesBodies(hash) ==> Ready()
      ensures id in participants ==> Conserved()
    {
      hide Sound, Rooting, Poset.CachesOk;
      this.id, this.hash, this.sign := id, hash, sign;
      head, seqNo := NoHash, -1;
      transactionPool, internalTransactionPool, blockSignaturePool := [], [], [];
      submitted := [];
      poset := new Poset(participants, cacheSize);
      new;
      assert poset.dag == Initial(participants, cacheSize).dag;
    }

    /** The head and its index, after a start or a Reset. */
    method SetHeadAndSeq() returns (error: Option<Error>)
      requires WellFormed(poset.dag)
      modifies this`head, this`seqNo
      ensures error == None <==> id in poset.dag.roots && id in poset.dag.logs
      ensures error == None ==> head == LastEventFrom(poset.dag, id) && seqNo == LastIndexFrom(poset.dag, id)
      ensures error != None ==> head == old(head) && seqNo == old(seqNo)
      ensures error == None && poset.Valid() && Shareable(hash, poset.dag) && OwnPool(blockSignaturePool, id) ==>
                Ready()
    {
      hide Poset.Valid, Shareable, WellFormed, OwnPool;
      if id !in poset.dag.roots || id !in poset.dag.logs {
        return Some(UnknownParticipant);
      }
      LastIsLast(poset.dag, id);
      var log := poset.dag.logs[id];
      if log == [] {
        head, seqNo := poset.dag.roots[id].selfParent.hash, poset.dag.roots[id].selfParent.index;
      } else {
        LastIsStored(poset.dag, id);
        head, seqNo := log[|log| - 1], poset.dag.events[log[|log| - 1]].index;
      }
      return None;
    }

    /** Takes an event in; the node's own move its head. */
    method InsertEvent(e: Event) returns (error: Option<Error>)
      requires Ready()
      modifies this`head, this`seqNo, poset
      ensures error != None || (old(Fresh(poset.dag, hash(e), e)) && SurvivesWire(e)) ==> Ready()
      ensures error == None <==> old(Insert(poset.dag, hash(e), e)).Ok?
      ensures error == None ==>
                old(Insert(poset.dag, hash(e), e)).Ok? && poset.Abs() == InsertedState(old(poset.Abs()), hash(e), e)
      ensures error != None ==>
                error == Some(old(Insert(poset.dag, hash(e), e)).error) && poset.Abs() == old(poset.Abs())
      ensures if error == None && e.creator == id then head == hash(e) && seqNo == e.index
              else head == old(head) && seqNo == old(seqNo)
    {
      hide Insert, Fresh, Sound, Rooting, Shareable, HeadIs, OwnPool, SurvivesWire, Poset.CachesOk, Poset.CachesRight;
      Right(poset);
      if Insert(poset.dag, hash(e), e).Ok? && Fresh(poset.dag, hash(e), e) && SurvivesWire(e) {
        ReadyParts();
        ShareableStays(hash, poset.dag, e);
        HeadStays(poset.dag, hash(e), e, id, head, seqNo);
      }
      error := poset.InsertEvent(hash(e), e);
      if error == None && e.creator == id {
        head, seqNo := hash(e), e.index;
      }
    }

    // -------------------------------------------------------------- gossip

    /** What the node knows that `known` does not cover, parents first. */
    method EventDiff(known: map<Creator, int>) returns (r: Result<seq<Hash>>)
      requires poset.Valid()
      ensures AllStored(poset.dag, poset.dag.order)
      ensures r.Err? <==> exists c :: c in known && c in poset.dag.roots && known[c] < -1
      ensures r.Err? ==> r.error == TooLate
      ensures r.Ok? ==> r.value == Gossip.EventDiff(poset.dag, known)
    {
      hide Poset.Valid, Based, Lists, Lacking, StableSort, Newer, ParticipantEvents;
      ghost var d := poset.dag;
      GraphParts();
      var unknown: seq<Hash> := [];
      LackingNone(d, known);
      var rest := known.Keys;
      while rest != {}
        invariant rest <= known.Keys && Lists(unknown, Lacking(d, known, rest))
        invariant forall c :: c in known && c !in rest && c in d.roots ==> known[c] >= -1
      {
        SomeCreator(rest);
        var c: Creator :| c in rest;
        LackingNext(d, known, rest, c, unknown);
        if c in poset.dag.roots {
          var events := ParticipantEvents(poset.dag, c, known[c]);
          TooLateIff(d, c, known[c]);
          if events.Err? {
            return Err(TooLate);
          }
          unknown := unknown + events.value;
        }
        rest := rest - {c};
      }
      SortedIsDiff(d, known, unknown);
      return Ok(StableSort(unknown, TopoKeys(poset.dag)));
    }

    /** Whether the other node is too far behind to be sent the difference: by index arithmetic alone. */
    method OverSyncLimit(known: map<Creator, int>, syncLimit: int) returns (over: bool)
      requires poset.Valid()
      ensures AllStored(poset.dag, poset.dag.order) && poset.dag.logs.Keys <= poset.dag.roots.Keys
      ensures (forall c :: c in known && c in poset.dag.roots ==> known[c] >= -1) ==>
                (over <==> |Gossip.EventDiff(poset.dag, Filled(KnownEvents(poset.dag), known))| > syncLimit)
    {
      hide Poset.Valid, Based, Lists, Lacking, Newer, ParticipantEvents;
      ghost var d := poset.dag;
      GraphParts();
      var mine := KnownEvents(poset.dag);
      ghost var filled := Filled(mine, known);
      ghost var full := forall c :: c in known && c in d.roots ==> known[c] >= -1;
      ghost var unknown: seq<Hash> := [];
      LackingNone(d, filled);
      var totUnknown := 0;
      var rest := mine.Keys;
      assert filled.Keys == mine.Keys;
      while rest != {}
        invariant rest <= mine.Keys
        invariant full ==> Lists(unknown, Lacking(d, filled, rest)) && totUnknown == |unknown|
      {
        SomeCreator(rest);
        var c: Creator :| c in rest;
        if full {
          LackingNext(d, filled, rest, c, unknown);
          PartSize(d, c, filled[c]);
          unknown := unknown + ParticipantEvents(d, c, filled[c]).value;
        }
        var theirs := if c in known then known[c] else 0;
        if mine[c] > theirs {
          totUnknown := totUnknown + mine[c] - theirs;
        }
        rest := rest - {c};
      }
      if full {
        SortedIsDiff(d, filled, unknown);
      }
      return totUnknown > syncLimit;
    }

    ghost function NextEvent(otherHead: Hash): Event
      reads this, poset
    {
      var n := if |transactionPool| < MAX_TRANSACTIONS_IN_EVENT then |transactionPool| else MAX_TRANSACTIONS_IN_EVENT;
      SelfEvent(poset.dag, id, seqNo + 1, head, otherHead,
                transactionPool[..n], internalTransactionPool, blockSignaturePool, sign)
    }

    /** Makes a new event of the pools, on top of the node's head and the other's. The
        transactions leave the pool only when the event is in. */
    method AddSelfEventBlock(otherHead: Hash) returns (error: Option<Error>)
      requires Ready()
      modifies this, poset
      ensures Ready() && submitted == old(submitted) && (old(Conserved()) ==> Conserved())
      ensures var e := old(NextEvent(otherHead));
              && (error == None <==> old(Insert(poset.dag, hash(e), e)).Ok?)
              && (error == None ==>
                    && poset.Abs() == InsertedState(old(poset.Abs()), hash(e), e) && head == hash(e) && seqNo == e.index
                    && old(transactionPool) == e.transactions + transactionPool && internalTransactionPool == []
                    && blockSignaturePool == if transactionPool == [] then [] else old(blockSignaturePool))
              && (error != None ==>
                    && poset.Abs() == old(poset.Abs()) && head == old(head) && seqNo == old(seqNo)
                    && transactionPool == old(transactionPool)
                    && internalTransactionPool == old(internalTransactionPool)
                    && blockSignaturePool == old(blockSignaturePool))
    {
      hide Insert, Fresh, Ready, Shareable, HeadIs, Conserves, SurvivesWire, OwnPool;
      var nTxs :=
        if |transactionPool| < MAX_TRANSACTIONS_IN_EVENT then |transactionPool| else MAX_TRANSACTIONS_IN_EVENT;
      var batch := transactionPool[..nTxs];
      var newHead := SelfEvent(poset.dag, id, seqNo + 1, head, otherHead,
                               batch, internalTransactionPool, blockSignaturePool, sign);
      ghost var d := poset.dag;
      ReadyParts();
      HeadSurvives(hash, d, head);
      SelfEventSendable(d, id, seqNo + 1, head, otherHead, batch, internalTransactionPool, blockSignaturePool, sign);
      if Insert(d, hash(newHead), newHead).Ok? {
        SelfFresh(hash, d, newHead, seqNo);
        if Conserved() {
          PoolDrained(d, hash(newHead), newHead, transactionPool, nTxs, submitted);
        }
      }
      error := InsertEvent(newHead);
      if error != None {
        return;
      }
      assert old(transactionPool) == batch + old(transactionPool)[nTxs..];
      DrainPools(nTxs);
    }

    /** Block signatures are kept until the transactions are gone. */
    method DrainPools(nTxs: nat)
      requires Ready() && nTxs <= |transactionPool|
      modifies this`transactionPool, this`internalTransactionPool, this`blockSignaturePool
      ensures Ready() && transactionPool == old(transactionPool)[nTxs..] && internalTransactionPool == []
      ensures blockSignaturePool == if transactionPool == [] then [] else old(blockSignaturePool)
    {
      hide Poset.Valid, Shareable, HeadIs;
      transactionPool := transactionPool[nTxs..];
      internalTransactionPool := [];
      if |transactionPool| == 0 {
        blockSignaturePool := [];
      }
    }

    /** One incoming event; the result is its hash. */
    method ReceiveOne(w: WireEvent, mine: map<Creator, int>) returns (r: Result<Hash>)
      requires Ready() && LogPerRoot(poset.dag) && Orderly(hash, Progress(poset.dag, None, NoHash), mine, w)
      modifies this`head, this`seqNo, poset
      ensures Ready() && LogPerRoot(poset.dag)
      ensures old(Received(hash, Progress(poset.dag, None, NoHash), mine, w)) ==
                Progress(poset.dag, if r.Ok? then None else Some(r.error), if r.Ok? then r.value else NoHash)
      ensures OnlyInserted(old(poset.Abs()), poset.Abs())
      ensures old(Conserved()) && !(w.info.creator == id && id in mine && w.index > mine[id]) ==> Conserved()
    {
      hide Insert, Fresh, Ready, Shareable, HeadIs, OwnPool, SurvivesWire, Conserves, Reads, ReadBased, Based;
      ReadyParts();
      ghost var d := poset.dag;
      var ev := ReadWireInfo(poset.dag, w);
      ReadsOnBase(d, w, ev);
      if ev.Err? {
        return Err(ev.error);
      }
      var e := ev.value;
      ReadKeeps(d, w);
      ReadSurvives(d, w);
      if IsNewer(e, mine) {
        if Insert(d, hash(e), e).Ok? && e.creator != id && Conserved() {
          OthersConserve(d, hash(e), e, id, transactionPool, submitted);
        }
        var error := InsertEvent(e);
        ReadyParts();
        OrderStored(poset.dag);
        if error.Some? {
          return Err(error.value);
        }
      }
      return Ok(hash(e));
    }

    /** Takes in what another node sent, then, if there is anything to pass on, makes an
        event on top of both heads. `mid` is the state in between, `own` the new event. */
    method Sync(wires: seq<WireEvent>) returns (error: Option<Error>, ghost mid: State, ghost own: Event)
      requires Ready() && LogPerRoot(poset.dag) && AllOrderly(hash, poset.dag, KnownEvents(poset.dag), wires)
      modifies this, poset
      ensures Ready() && submitted == old(submitted)
      ensures var p := old(ReceiveAll(hash, poset.dag, KnownEvents(poset.dag), wires));
              && mid.dag == p.dag && OnlyInserted(old(poset.Abs()), mid)
              && (p.error.Some? ==> error == p.error && poset.Abs() == mid)
              && (p.error == None && !(mid.pendingLoaded > 0 || old(Pooled())) ==> error == None && poset.Abs() == mid)
              && (p.error == None && (mid.pendingLoaded > 0 || old(Pooled())) ==>
                    && own.creator == id && own.otherParent == p.last
                    && (error == None <==> Insert(mid.dag, hash(own), own).Ok?)
                    && (error == None ==>
                         poset.Abs() == InsertedState(mid, hash(own), own) && OnBothHeads(mid.dag, own))
                    && (error == None ==> head == hash(own) && seqNo == own.index)
                    && (error == None ==>
                         old(transactionPool) == own.transactions + transactionPool && internalTransactionPool == [])
                    && (error == None ==>
                          blockSignaturePool == if transactionPool == [] then [] else old(blockSignaturePool))
                    && (error != None ==> poset.Abs() == mid))
              && (p.error.Some? || error != None || !(mid.pendingLoaded > 0 || old(Pooled())) ==>
                    && transactionPool == old(transactionPool)
                    && internalTransactionPool == old(internalTransactionPool)
                    && blockSignaturePool == old(blockSignaturePool))
      ensures old(Conserved()) && NothingOwn(id, old(KnownEvents(poset.dag)), wires) ==> Conserved()
    {
      hide Insert, Fresh, Ready, Shareable, HeadIs, OwnPool, OnBothHeads, Conserves, ReceiveAll, AllOrderly;
      hide KnownEvents, NothingOwn;
      var otherHead;
      error, otherHead := ReceiveEvents(wires);
      mid := poset.Abs();
      own := NextEvent(otherHead);
      ReadyParts();
      if Insert(poset.dag, hash(own), own).Ok? {
        TakesHead(hash, poset.dag, own, seqNo);
      }
      if error == None && (poset.pendingLoaded > 0 || |transactionPool| > 0 || |internalTransactionPool| > 0
        || |blockSignaturePool| > 0) {
        error := AddSelfEventBlock(otherHead);
      }
    }

    ghost predicate Pooled()
      reads this
    {
      |transactionPool| > 0 || |internalTransactionPool| > 0 || |blockSignaturePool| > 0
    }

    /** The loop of Sync: up to the first event that cannot be rebuilt or is refused. */
    method ReceiveEvents(wires: seq<WireEvent>) returns (error: Option<Error>, otherHead: Hash)
      requires Ready() && LogPerRoot(poset.dag) && AllOrderly(hash, poset.dag, KnownEvents(poset.dag), wires)
      modifies this`head, this`seqNo, poset
      ensures Ready() && OnlyInserted(old(poset.Abs()), poset.Abs())
      ensures var p := old(ReceiveAll(hash, poset.dag, KnownEvents(poset.dag), wires));
              poset.dag == p.dag && error == p.error && (error == None ==> otherHead == p.last)
      ensures old(Conserved()) && NothingOwn(id, old(KnownEvents(poset.dag)), wires) ==> Conserved()
    {
      hide Insert, Fresh, Ready, Conserves, Received, Orderly, KnownEvents;
      ghost var d := poset.dag;
      var mine := KnownEvents(poset.dag);
      otherHead := NoHash;
      var k := 0;
      while k < |wires|
        invariant 0 <= k <= |wires| && Ready() && LogPerRoot(poset.dag) && OnlyInserted(old(poset.Abs()), poset.Abs())
        invariant ReceiveAll(hash, d, mine, wires[..k]).dag == poset.dag
        invariant ReceiveAll(hash, d, mine, wires[..k]).error == None
        invariant k == |wires| ==> otherHead == ReceiveAll(hash, d, mine, wires).last
        invariant old(Conserved()) && NothingOwn(id, mine, wires) ==> Conserved()
      {
        ReceiveNext(hash, d, mine, wires, k);
        var h := ReceiveOne(wires[k], mine);
        if h.Err? {
          ReceiveStops(hash, d, mine, wires, k + 1, |wires|);
          return Some(h.error), NoHash;
        }
        if k == |wires| - 1 {
          otherHead := h.value;
        }
        k := k + 1;
        assert k == |wires| ==> wires[..k] == wires;
      }
      assert wires[..k] == wires;
      return None, otherHead;
    }

    /** One round of consensus. */
    method RunConsensus() returns (ghost s1: State, ghost s2: State, ghost s3: State)
      requires Ready()
      modifies poset
      ensures Ready() && Passes(old(poset.Abs()), s1, s2, s3, poset.Abs())
      ensures old(Conserved()) ==> Conserved()
    {
      hide Sound, Rooting, Poset.CachesOk, Shareable, HeadIs, OwnPool, Conserves, Passes;
      s1, s2, s3 := poset.RunConsensus();
    }

    // -------------------------------------------------------------- pools

    method AddTransactions(txs: seq<Transaction>)
      modifies this`transactionPool, this`submitted
      ensures transactionPool == old(transactionPool) + txs && submitted == old(submitted) + txs
      ensures old(Conserved()) ==> Conserved()
    {
      if Conserved() {
        assert Payload(poset.dag, poset.dag.logs[id]) + (transactionPool + txs) ==
                 Payload(poset.dag, poset.dag.logs[id]) + transactionPool + txs;
      }
      transactionPool := transactionPool + txs;
      submitted := submitted + txs;
    }

    method AddInternalTransactions(txs: seq<Transaction>)
      modifies this`internalTransactionPool
      ensures internalTransactionPool == old(internalTransactionPool) + txs
    {
      internalTransactionPool := internalTransactionPool + txs;
    }

    /** The node adds the signatures it makes itself. */
    method AddBlockSignature(bs: BlockSignature)
      requires bs.validator == id
      modifies this`blockSignaturePool
      ensures blockSignaturePool == old(blockSignaturePool) + [bs] && (old(Ready()) ==> Ready())
    {
      hide Poset.Valid, Shareable, HeadIs;
      blockSignaturePool := blockSignaturePool + [bs];
    }
  }

  lemma {:induction false} Right(poset: Poset)
    ensures poset.CachesOk() ==> poset.CachesRight()
  {
  }

  /** The event is the next of its creator, on its last one in `d`. */
  ghost predicate OnBothHeads(d: Dag, e: Event) {
    e.creator in d.roots && e.creator in d.logs && e.selfParent == LastEventFrom(d, e.creator)
      && e.index == LastIndexFrom(d, e.creator) + 1
  }

  lemma {:induction false} TakesHead(hash: Event -> Hash, d: Dag, e: Event, seqNo: int)
    requires Insert(d, hash(e), e).Ok? && HeadIs(d, e.creator, e.selfParent, seqNo) && e.index == seqNo + 1
    ensures OnBothHeads(d, e)
  {
  }

  lemma {:induction false} LastIsStored(d: Dag, c: Creator)
    requires WellFormed(d) && c in d.roots && c in d.logs && d.logs[c] != []
    ensures d.logs[c][|d.logs[c]| - 1] in d.events && d.events[d.logs[c][|d.logs[c]| - 1]].index == LastIndexFrom(d, c)
  {
    assert LogOk(d, c);
  }

  lemma {:induction false} HeadSurvives(hash: Event -> Hash, d: Dag, head: Hash)
    requires Shareable(hash, d)
    ensures head in d.events ==> d.events[head].flagTable != {}
  {
    hide NamesBodies;
  }

  /** Between two nodes: whatever one answers, however old the request, the other takes in
      whole and without error, over the wire. */
  lemma {:induction false} AnswerOverTheWire(answering: Core, receiving: Core, known: map<Creator, int>)
    requires answering.Ready() && receiving.Ready() && answering.hash == receiving.hash
    requires Compatible(receiving.poset.dag, answering.poset.dag)
    requires receiving.poset.dag.logs.Keys <= receiving.poset.dag.roots.Keys
    requires Covered(known, KnownEvents(receiving.poset.dag))
    ensures LogPerRoot(receiving.poset.dag) && Based(answering.poset.dag)
    ensures AllStored(answering.poset.dag, answering.poset.dag.order)
    ensures AllStored(answering.poset.dag, Gossip.EventDiff(answering.poset.dag, known))
    ensures var d, s := receiving.poset.dag, answering.poset.dag;
            var wires := Wires(s, Gossip.EventDiff(s, known));
            && AllOrderly(receiving.hash, d, KnownEvents(d), wires)
            && var p := ReceiveAll(receiving.hash, d, KnownEvents(d), wires);
               p.error == None && Union(d, s, p.dag) && p.last == LastHash(Gossip.EventDiff(s, known))
  {
    hide Core.Ready, NamesBodies, Sendable, Based, Compatible, Covered, KnownEvents, Newer, ReceiveAll, AllOrderly;
    hide Union, Wires;
    answering.ReadyParts();
    receiving.ReadyParts();
    OrderStored(answering.poset.dag);
    OrderStored(receiving.poset.dag);
    SyncOfAnswer(receiving.hash, receiving.poset.dag, answering.poset.dag, known);
  }

  /** No incoming event is a new one of the node's own. */
  ghost predicate NothingOwn(id: Creator, mine: map<Creator, int>, wires: seq<WireEvent>) {
    forall k :: 0 <= k < |wires| ==> !(wires[k].info.creator == id && id in mine && wires[k].index > mine[id])
  }

  /** Only what an insertion changes has changed. */
  ghost predicate OnlyInserted(s: State, s': State) {
    s' == s.(dag := s'.dag, undetermined := s'.undetermined, pendingLoaded := s'.pendingLoaded)
  }

  lemma {:induction false} ReadKeeps(d: Dag, w: WireEvent)
    requires LogPerRoot(d)
    ensures ReadBased(d, w).Ok? ==>
              ReadBased(d, w).value.creator == w.info.creator && ReadBased(d, w).value.index == w.index
  {
    hide ReadSelfParent, ParticipantEvent;
  }

  lemma {:induction false} OrderStored(d: Dag)
    requires Based(d)
    ensures AllStored(d, d.order) && d.logs.Keys == d.roots.Keys
  {
    hide EventOk, LogOk;
  }

  lemma {:induction false} TooLateIff(d: Dag, c: Creator, skip: int)
    requires c in d.logs
    ensures ParticipantEvents(d, c, skip).Err? <==> skip < -1
    ensures ParticipantEvents(d, c, skip).Err? ==> ParticipantEvents(d, c, skip).error == TooLate
  {
  }
}
