/** The wire form of events: parents travel as a participant and an index instead of a hash. */
module Wire {
  import opened Dags
  import opened Gossip

  datatype WireInfo = WireInfo(
    selfParentIndex: int, otherParentCreator: Creator, otherParentIndex: int, creator: Creator)

  datatype WireBlockSignature = WireBlockSignature(index: int, signature: string)

  datatype WireEvent = WireEvent(
    info: WireInfo,
    index: int,
    transactions: seq<Transaction>,
    nilTransactions: bool,
    internalTransactions: seq<Transaction>,
    blockSignatures: seq<WireBlockSignature>,
    signature: Signature,
    flagTable: set<Hash>,
    witnessProof: seq<Hash>)

  // ---------------------------------------------------------------- sending

  /** Where the parents of `e` are, as the sender finds them when it takes `e` in. */
  function SetWireInfo(d: Dag, h: Hash, e: Event): Result<WireInfo>
    requires e.creator in d.roots && e.creator in d.logs
  {
    var root := d.roots[e.creator];
    var sp :=
      if d.logs[e.creator] == [] && root.selfParent.hash == e.selfParent then Ok(root.selfParent.index)
      else if e.selfParent in d.events then Ok(d.events[e.selfParent].index)
      else Err(KeyNotFound);
    if sp.Err? then Err(sp.error)
    else if e.otherParent == NoHash then Ok(WireInfo(sp.value, -1, -1, e.creator))
    else if h in root.others && root.others[h].hash == e.otherParent then
      Ok(WireInfo(sp.value, root.others[h].creator, root.others[h].index, e.creator))
    else if e.otherParent in d.events then
      Ok(WireInfo(sp.value, d.events[e.otherParent].creator, d.events[e.otherParent].index, e.creator))
    else Err(KeyNotFound)
  }

  function ToWire(e: Event, info: WireInfo): WireEvent {
    WireEvent(info, e.index, e.transactions, e.nilTransactions, e.internalTransactions,
              seq(|e.blockSignatures|, i requires 0 <= i < |e.blockSignatures| =>
                WireBlockSignature(e.blockSignatures[i].index, e.blockSignatures[i].signature)),
              e.signature, e.flagTable, e.witnessProof)
  }

  // ---------------------------------------------------------------- receiving

  /** A participant's event by index; its root stands for the index before its first. */
  function ParticipantEvent(d: Dag, c: Creator, index: int): Result<Hash>
    requires c in d.roots && c in d.logs
  {
    var first := d.roots[c].selfParent.index + 1;
    if first <= index < first + |d.logs[c]| then Ok(d.logs[c][index - first])
    else if index == first - 1 then Ok(d.roots[c].selfParent.hash)
    else Err(KeyNotFound)
  }

  /** The entry a root's Others hold for a place on the wire. */
  predicate Names(re: RootEvent, c: Creator, index: int) {
    re.creator == c && re.index == index
  }

  function FromWire(w: WireEvent, selfParent: Hash, otherParent: Hash): Event {
    Event(w.info.creator, w.index, selfParent, otherParent, w.transactions, w.nilTransactions, w.internalTransactions,
          seq(|w.blockSignatures|, i requires 0 <= i < |w.blockSignatures| =>
            BlockSignature(w.info.creator, w.blockSignatures[i].index, w.blockSignatures[i].signature)),
          w.signature, w.flagTable, w.witnessProof)
  }

  function ReadSelfParent(d: Dag, info: WireInfo): Result<Hash>
    requires info.creator in d.roots && info.creator in d.logs
  {
    if info.selfParentIndex >= 0 then ParticipantEvent(d, info.creator, info.selfParentIndex)
      else Ok(RootHash(info.creator))
  }

  /** `r` is a possible outcome of looking for the other-parent: the first of the entries
      of Others that fits is taken, and they come in no fixed order. */
  ghost predicate ReadsOther(d: Dag, info: WireInfo, r: Result<Hash>)
    requires info.creator in d.roots && d.logs.Keys == d.roots.Keys
  {
    var c, i, others := info.otherParentCreator, info.otherParentIndex, d.roots[info.creator].others;
    if i < 0 then r == Ok(NoHash)
    else if c !in d.roots then r == Err(UnknownParticipant)
    else if ParticipantEvent(d, c, i).Ok? then r == ParticipantEvent(d, c, i)
    else if exists k :: k in others && Names(others[k], c, i) then
      exists k :: k in others && Names(others[k], c, i) && r == Ok(others[k].hash)
    else r == Err(OtherParentUnknown)
  }

  /** `r` is a possible outcome of ReadWireInfo. */
  ghost predicate Reads(d: Dag, w: WireEvent, r: Result<Event>)
    requires d.logs.Keys == d.roots.Keys
  {
    if w.info.creator !in d.roots then r == Err(UnknownParticipant)
    else
      var sp := ReadSelfParent(d, w.info);
      if sp.Err? then r == Err(sp.error)
      else
        exists op :: ReadsOther(d, w.info, op) &&
          r == if op.Err? then Err(op.error)
               else if w.flagTable == {} then Err(NoFlagTable)
               else Ok(FromWire(w, sp.value, op.value))
  }

  method ReadOtherParent(d: Dag, info: WireInfo) returns (r: Result<Hash>)
    requires info.creator in d.roots && d.logs.Keys == d.roots.Keys
    ensures ReadsOther(d, info, r)
  {
    var c, i := info.otherParentCreator, info.otherParentIndex;
    if i < 0 {
      return Ok(NoHash);
    }
    if c !in d.roots {
      return Err(UnknownParticipant);
    }
    var found := ParticipantEvent(d, c, i);
    if found.Ok? {
      return found;
    }
    var others := d.roots[info.creator].others;
    var rest := others.Keys;
    while rest != {}
      invariant rest <= others.Keys
      invariant forall k :: k in others && k !in rest ==> !Names(others[k], c, i)
    {
      var k :| k in rest;
      if Names(others[k], c, i) {
        return Ok(others[k].hash);
      }
      rest := rest - {k};
    }
    return Err(OtherParentUnknown);
  }

  /** Turns participants and indexes back into hashes. */
  method ReadWireInfo(d: Dag, w: WireEvent) returns (r: Result<Event>)
    requires d.logs.Keys == d.roots.Keys
    ensures Reads(d, w, r)
  {
    if w.info.creator !in d.roots {
      return Err(UnknownParticipant);
    }
    var selfParent := ReadSelfParent(d, w.info);
    if selfParent.Err? {
      return Err(selfParent.error);
    }
    var otherParent := ReadOtherParent(d, w.info);
    if otherParent.Err? {
      return Err(otherParent.error);
    }
    if w.flagTable == {} {
      return Err(NoFlagTable);
    }
    return Ok(FromWire(w, selfParent.value, otherParent.value));
  }

  // ---------------------------------------------------------------- round trip

  /** The places of the parents, said without reference to when `e` came in. */
  ghost function InfoOf(d: Dag, e: Event): WireInfo
    requires e.otherParent != NoHash ==> e.otherParent in d.events
  {
    if e.otherParent == NoHash then WireInfo(e.index - 1, -1, -1, e.creator)
    else WireInfo(e.index - 1, d.events[e.otherParent].creator, d.events[e.otherParent].index, e.creator)
  }

  /** What the sender records when it takes an event in is where its parents are. */
  lemma {:induction false} WireInfoIs(d: Dag, h: Hash, e: Event)
    requires Based(d) && Fresh(d, h, e) && Insert(d, h, e).Ok?
    ensures e.creator in d.roots && e.creator in d.logs && (e.otherParent != NoHash ==> e.otherParent in d.events)
    ensures SetWireInfo(d, h, e) == Ok(InfoOf(d, e))
  {
    assert d.roots[e.creator] == BaseRoot(e.creator);
    var n := |d.logs[e.creator]|;
    if n > 0 {
      LogEntry(d, e.creator, n - 1);
    }
  }

  /** Its parents are in `d`, at the places its own fields say. */
  ghost predicate ParentsIn(d: Dag, e: Event) {
    && Based(d) && e.creator in d.roots && 0 <= e.index
    && (e.index == 0 ==> e.selfParent == RootHash(e.creator))
    && (e.index > 0 ==>
         && e.selfParent in d.events && d.events[e.selfParent].creator == e.creator
          && d.events[e.selfParent].index == e.index - 1)
    && (e.otherParent != NoHash ==> e.otherParent in d.events)
  }

  /** The sender's block signatures are all its own: only their index and signature travel. */
  predicate OwnSignatures(e: Event) {
    forall i :: 0 <= i < |e.blockSignatures| ==> e.blockSignatures[i].validator == e.creator
  }

  /** The events that can be sent and read back: see WireRoundTrip. */
  predicate SurvivesWire(e: Event) {
    e.flagTable != {} && OwnSignatures(e)
  }

  lemma {:induction false} PlaceOf(d: Dag, x: Hash)
    requires Based(d) && x in d.events
    ensures var e := d.events[x];
            e.creator in d.roots && e.creator in d.logs && e.index >= 0
              && ParticipantEvent(d, e.creator, e.index) == Ok(x)
  {
    InLog(d, x);
    assert d.roots[d.events[x].creator] == BaseRoot(d.events[x].creator);
  }

  lemma {:induction false} SelfParentRead(s: Dag, d: Dag, e: Event)
    requires ParentsIn(s, e) && ParentsIn(d, e)
    ensures e.creator in d.logs && ReadSelfParent(d, InfoOf(s, e)) == Ok(e.selfParent)
  {
    assert e.creator in d.logs by {
      hide EventOk, LogOk;
    }
    hide WellFormed;
    if e.index > 0 {
      PlaceOf(d, e.selfParent);
    }
  }

  lemma {:induction false} OtherParentRead(s: Dag, d: Dag, e: Event, r: Result<Hash>)
    requires ParentsIn(s, e) && ParentsIn(d, e) && Agree(s, d) && d.logs.Keys == d.roots.Keys
    requires ReadsOther(d, InfoOf(s, e), r)
    ensures r == Ok(e.otherParent)
  {
    hide WellFormed;
    if e.otherParent != NoHash {
      PlaceOf(d, e.otherParent);
    }
  }

  lemma {:induction false} FromToWire(s: Dag, e: Event)
    requires ParentsIn(s, e)
    ensures FromWire(ToWire(e, InfoOf(s, e)), e.selfParent, e.otherParent) == e <==> OwnSignatures(e)
  {
    hide Based;
    var back := FromWire(ToWire(e, InfoOf(s, e)), e.selfParent, e.otherParent);
    assert forall i :: 0 <= i < |e.blockSignatures| ==> back.blockSignatures[i].validator == e.creator;
    if OwnSignatures(e) {
      forall i | 0 <= i < |e.blockSignatures| ensures back.blockSignatures[i] == e.blockSignatures[i] {
      }
      assert back.blockSignatures == e.blockSignatures;
    }
  }

  /** A receiver that holds the parents rebuilds the event exactly if its flag table is
      not empty and its block signatures are its creator's. */
  lemma {:induction false} WireRoundTrip(s: Dag, d: Dag, e: Event, r: Result<Event>)
    requires ParentsIn(s, e) && ParentsIn(d, e) && Agree(s, d) && d.logs.Keys == d.roots.Keys
    requires Reads(d, ToWire(e, InfoOf(s, e)), r)
    ensures r == Ok(e) <==> SurvivesWire(e)
    ensures r.Err? <==> e.flagTable == {}
  {
    hide Based, FromWire, ReadSelfParent, ReadsOther, OwnSignatures;
    SelfParentRead(s, d, e);
    FromToWire(s, e);
    forall op | ReadsOther(d, InfoOf(s, e), op) ensures op == Ok(e.otherParent) {
      OtherParentRead(s, d, e, op);
    }
  }

  /** A stored event's parents are where it says. */
  lemma {:induction false} StoredParents(d: Dag, h: Hash)
    requires Based(d) && h in d.events
    ensures ParentsIn(d, d.events[h])
  {
    InLog(d, h);
    var e := d.events[h];
    hide WellFormed;
    if e.index > 0 {
      LogEntry(d, e.creator, e.index - 1);
    }
  }

  lemma {:induction false} AcceptedParents(d: Dag, h: Hash, e: Event)
    requires Based(d) && Fresh(d, h, e) && Insert(d, h, e).Ok?
    ensures ParentsIn(d, e)
  {
    assert d.roots[e.creator] == BaseRoot(e.creator);
    var n := |d.logs[e.creator]|;
    if n > 0 {
      LogEntry(d, e.creator, n - 1);
    }
  }

  /** The same from end to end: the sender numbers the parents when it takes the event in,
      and the receiver puts the hashes back. */
  lemma {:induction false} SentAndRead(s: Dag, d: Dag, h: Hash, e: Event, r: Result<Event>)
    requires Based(s) && Fresh(s, h, e) && Insert(s, h, e).Ok? && ParentsIn(d, e) && Agree(s, d)
    requires d.logs.Keys == d.roots.Keys
    ensures e.creator in s.roots && e.creator in s.logs && SetWireInfo(s, h, e).Ok?
    ensures Reads(d, ToWire(e, SetWireInfo(s, h, e).value), r) ==>
              && (r == Ok(e) <==> SurvivesWire(e))
              && (r.Err? <==> e.flagTable == {})
  {
    hide Fresh, Insert, WellFormed, Reads, OwnSignatures;
    WireInfoIs(s, h, e);
    AcceptedParents(s, h, e);
    if Reads(d, ToWire(e, SetWireInfo(s, h, e).value), r) {
      WireRoundTrip(s, d, e, r);
    }
  }

  /** On base roots, which record no other-parents, there is only one outcome. */
  function ReadBased(d: Dag, w: WireEvent): Result<Event>
    requires d.logs.Keys == d.roots.Keys
  {
    var c := w.info.otherParentCreator;
    if w.info.creator !in d.roots then Err(UnknownParticipant)
    else
      var sp := ReadSelfParent(d, w.info);
      if sp.Err? then Err(sp.error)
      else if w.info.otherParentIndex >= 0 && c !in d.roots then Err(UnknownParticipant)
      else if w.info.otherParentIndex >= 0 && ParticipantEvent(d, c, w.info.otherParentIndex).Err? then
        Err(OtherParentUnknown)
      else if w.flagTable == {} then Err(NoFlagTable)
      else
        var op := if w.info.otherParentIndex < 0 then NoHash else ParticipantEvent(d, c, w.info.otherParentIndex).value;
        Ok(FromWire(w, sp.value, op))
  }

  lemma {:induction false} ReadsOnBase(d: Dag, w: WireEvent, r: Result<Event>)
    requires Based(d) && d.logs.Keys == d.roots.Keys
    ensures Reads(d, w, r) <==> r == ReadBased(d, w)
  {
    hide WellFormed, FromWire, ReadSelfParent, ParticipantEvent;
    if w.info.creator in d.roots {
      assert d.roots[w.info.creator] == BaseRoot(w.info.creator);
      var op := if w.info.otherParentIndex < 0 then Ok(NoHash)
                else if w.info.otherParentCreator !in d.roots then Err(UnknownParticipant)
                else if ParticipantEvent(d, w.info.otherParentCreator, w.info.otherParentIndex).Ok? then
                  ParticipantEvent(d, w.info.otherParentCreator, w.info.otherParentIndex)
                else Err(OtherParentUnknown);
      assert ReadsOther(d, w.info, op);
    }
  }
}
