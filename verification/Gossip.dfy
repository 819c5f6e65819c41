/** Gossip: what a node sends, what a node takes in, and what a network of nodes
    keeps true however requests and answers are delayed, repeated or lost. */
module Gossip {
  import opened Dags

  // ---------------------------------------------------------------- one exchange

  /** The index of the last event known of each participant. */
  function KnownEvents(d: Dag): map<Creator, int>
    requires d.logs.Keys <= d.roots.Keys
  {
    map c | c in d.logs :: LastIndexFrom(d, c)
  }

  predicate IsNewer(e: Event, known: map<Creator, int>) {
    e.creator in known && e.index > known[e.creator]
  }

  /** The listed events beyond what `known` covers, in the order of the list. */
  function Newer(events: map<Hash, Event>, known: map<Creator, int>, list: seq<Hash>): seq<Hash>
    requires forall i :: 0 <= i < |list| ==> list[i] in events
  {
    if list == [] then []
    else
      var n := |list| - 1;
      Newer(events, known, list[..n]) + if IsNewer(events[list[n]], known) then [list[n]] else []
  }

  /** The events of `d` that `known` does not cover, parents before children. */
  function EventDiff(d: Dag, known: map<Creator, int>): seq<Hash>
    requires AllStored(d, d.order)
  {
    Newer(d.events, known, d.order)
  }

  /** Inserts, in order, the listed events that are newer than `mine`, up to the first that is refused. */
  function Take(d: Dag, events: map<Hash, Event>, mine: map<Creator, int>, list: seq<Hash>): Result<Dag>
    requires forall i :: 0 <= i < |list| ==> list[i] in events
  {
    if list == [] then Ok(d)
    else
      var n := |list| - 1;
      var r := Take(d, events, mine, list[..n]);
      if r.Err? || !IsNewer(events[list[n]], mine) then r
      else Insert(r.value, list[n], events[list[n]])
  }

  /** `mine` covers all that `known` does. */
  ghost predicate Covered(known: map<Creator, int>, mine: map<Creator, int>) {
    known.Keys == mine.Keys && forall c :: c in known ==> known[c] <= mine[c]
  }

  /** Leaving out what the receiver knows already makes no difference to it. */
  lemma {:induction false} TakeNewer(d: Dag, events: map<Hash, Event>, known: map<Creator, int>,
                                     mine: map<Creator, int>, list: seq<Hash>)
    requires Covered(known, mine) && forall i :: 0 <= i < |list| ==> list[i] in events
    ensures forall i :: 0 <= i < |Newer(events, known, list)| ==> Newer(events, known, list)[i] in events
    ensures Take(d, events, mine, Newer(events, known, list)) == Take(d, events, mine, list)
  {
    hide Insert;
    if list != [] {
      var n := |list| - 1;
      TakeNewer(d, events, known, mine, list[..n]);
      var newer := Newer(events, known, list[..n]);
      if IsNewer(events[list[n]], known) {
        assert (newer + [list[n]])[..|newer|] == newer;
      } else {
        assert newer + [] == newer;
      }
    }
  }

  // ---------------------------------------------------------------- two parts of one history

  /** Of each participant one store holds a prefix of what the other holds. */
  ghost predicate Compatible(d: Dag, s: Dag) {
    && Based(d) && Based(s) && Agree(d, s)
    && forall c :: c in d.roots ==> c in d.logs && c in s.logs && (d.logs[c] <= s.logs[c] || s.logs[c] <= d.logs[c])
  }

  function Longer<T>(a: seq<T>, b: seq<T>): seq<T> {
    if |a| < |b| then b else a
  }

  /** `d'` is `d` with the first `k` events of `s`. */
  ghost predicate Merged(d: Dag, s: Dag, k: nat, d': Dag) {
    && Based(d') && d'.roots == d.roots && k <= |s.order|
    && (forall h :: h in d'.events <==> h in d.events || (h in s.topo && s.topo[h] < k))
    && (forall h :: h in d'.events && h in d.events ==> d'.events[h] == d.events[h])
    && (forall h :: h in d'.events && h in s.events ==> d'.events[h] == s.events[h])
    && (forall c :: c in d.roots ==>
         c in d.logs && c in s.logs && c in d'.logs && d.logs[c] <= d'.logs[c] <= Longer(d.logs[c], s.logs[c]))
  }

  lemma {:induction false} MergedBegin(d: Dag, s: Dag)
    requires Compatible(d, s)
    ensures Merged(d, s, 0, d)
  {
    hide EventOk, LogOk;
  }

  /** Where an event of a well-formed store sits. */
  lemma {:induction false} InLog(d: Dag, h: Hash)
    requires Based(d) && h in d.events
    ensures var e := d.events[h];
            && e.creator in d.roots && e.creator in d.logs && 0 <= e.index < |d.logs[e.creator]|
            && d.logs[e.creator][e.index] == h
            && e.selfParent == (if e.index == 0 then RootHash(e.creator) else d.logs[e.creator][e.index - 1])
            && Verify(e) && h.Digest? && e.otherParent != h && h in d.topo && d.topo[h] < |d.order|
            && d.order[d.topo[h]] == h
            && (e.index > 0 ==> e.selfParent in d.topo && d.topo[e.selfParent] < d.topo[h])
            && (e.otherParent != NoHash ==>
                 e.otherParent in d.events && e.otherParent in d.topo && d.topo[e.otherParent] < d.topo[h])
  {
    assert EventOk(d, h);
    assert d.roots[d.events[h].creator] == BaseRoot(d.events[h].creator);
  }

  lemma {:induction false} LogEntry(d: Dag, c: Creator, i: nat)
    requires Based(d) && c in d.roots && c in d.logs && i < |d.logs[c]|
    ensures d.logs[c][i] in d.events && d.events[d.logs[c][i]].creator == c && d.events[d.logs[c][i]].index == i
  {
    assert LogOk(d, c);
    assert d.roots[c] == BaseRoot(c);
  }

  lemma {:induction false} LastOfLog(d: Dag, c: Creator)
    requires Based(d) && c in d.roots
    ensures c in d.logs && LastIndexFrom(d, c) == |d.logs[c]| - 1
    ensures LastEventFrom(d, c) == if |d.logs[c]| == 0 then RootHash(c) else d.logs[c][|d.logs[c]| - 1]
  {
    assert d.roots[c] == BaseRoot(c);
  }

  lemma {:induction false} KnownIs(d: Dag, c: Creator)
    requires Based(d)
    ensures d.logs.Keys == d.roots.Keys && d.logs.Keys == KnownEvents(d).Keys
    ensures c in d.roots ==> c in d.logs && KnownEvents(d)[c] == |d.logs[c]| - 1
  {
    hide EventOk, LogOk;
    if c in d.roots {
      LastOfLog(d, c);
    }
  }

  /** The next event of `s`, when `d` does not have it, continues its creator's log in `d'`. */
  lemma {:induction false} NextContinues(d: Dag, s: Dag, k: nat, d': Dag)
    requires Compatible(d, s) && Merged(d, s, k, d') && k < |s.order|
    requires s.order[k] in s.events && s.events[s.order[k]].creator in d.logs
    requires s.events[s.order[k]].index >= |d.logs[s.events[s.order[k]].creator]|
    ensures var e := s.events[s.order[k]];
            && e.creator in s.logs && e.creator in d'.logs && 0 <= e.index < |s.logs[e.creator]|
            && d'.logs[e.creator] == s.logs[e.creator][..e.index]
  {
    var h := s.order[k];
    var e := s.events[h];
    var c, p := e.creator, e.index;
    InLog(s, h);
    assert s.topo[h] == k;
    hide WellFormed;
    assert Longer(d.logs[c], s.logs[c]) == s.logs[c];
    if p > 0 {
      var sp := s.logs[c][p - 1];
      LogEntry(s, c, p - 1);
      InLog(d', sp);
    }
    if |d'.logs[c]| > p {
      LogEntry(d', c, p);
      assert d'.logs[c][p] == h;
      if h in d.events {
        InLog(d, h);
      }
    }
  }

  /** It is one nothing in `d'` has heard of. */
  lemma {:induction false} NextIsFresh(d: Dag, s: Dag, k: nat, d': Dag)
    requires Compatible(d, s) && Merged(d, s, k, d') && k < |s.order|
    requires s.order[k] in s.events && s.events[s.order[k]].creator in d.logs
    requires s.events[s.order[k]].index >= |d.logs[s.events[s.order[k]].creator]|
    ensures Fresh(d', s.order[k], s.events[s.order[k]]) && s.order[k] !in d'.events
  {
    var h := s.order[k];
    var e := s.events[h];
    NextContinues(d, s, k, d');
    InLog(s, h);
    assert s.topo[h] == k;
    LastOfLog(d', e.creator);
    RootsAreHashes(d');
    hide WellFormed;
    if h in d'.events {
      InLog(d, h);
    }
    forall x | x in d'.events ensures d'.events[x].otherParent != h {
      InLog(d', x);
    }
  }

  lemma {:induction false} RootsAreHashes(d: Dag)
    requires Based(d)
    ensures forall x :: x in d.rootOf ==> x.RootHash?
  {
    hide EventOk, LogOk;
    forall x | x in d.rootOf ensures x.RootHash? {
      assert d.roots[d.rootOf[x]] == BaseRoot(d.rootOf[x]);
    }
  }

  lemma {:induction false} NextIsTaken(d: Dag, s: Dag, k: nat, d': Dag)
    requires Compatible(d, s) && Merged(d, s, k, d') && k < |s.order|
    requires s.order[k] in s.events && s.events[s.order[k]].creator in d.logs
    requires s.events[s.order[k]].index >= |d.logs[s.events[s.order[k]].creator]|
    ensures Insert(d', s.order[k], s.events[s.order[k]]).Ok?
  {
    var h := s.order[k];
    var e := s.events[h];
    NextContinues(d, s, k, d');
    InLog(s, h);
    assert s.topo[h] == k;
    LastOfLog(d', e.creator);
    NextIsFresh(d, s, k, d');
    NextLogged(d', h, e);
    hide WellFormed, Logged;
  }

  lemma {:induction false} InsertedBased(d: Dag, h: Hash, e: Event)
    requires Based(d) && Fresh(d, h, e) && Insert(d, h, e).Ok?
    ensures Based(Insert(d, h, e).value) && e.creator in d.roots && e.creator in d.logs
    ensures Insert(d, h, e).value == Stored(d, h, e)
  {
    hide EventOk, LogOk, Fresh;
    InsertKeeps(d, h, e);
    Appended(d, h, e);
  }

  lemma {:induction false} OrderAt(s: Dag, k: nat)
    requires Based(s) && k < |s.order|
    ensures s.order[k] in s.events && s.order[k] in s.topo && s.topo[s.order[k]] == k
    ensures forall h :: h in s.topo && s.topo[h] == k ==> h == s.order[k]
  {
    forall h | h in s.topo && s.topo[h] == k ensures h == s.order[k] {
      assert EventOk(s, h);
    }
  }

  lemma {:induction false} MergedTake(d: Dag, s: Dag, k: nat, d': Dag)
    requires Compatible(d, s) && Merged(d, s, k, d') && k < |s.order|
    requires s.order[k] in s.events && s.events[s.order[k]].creator in d.logs
    requires s.events[s.order[k]].index >= |d.logs[s.events[s.order[k]].creator]|
    ensures var r := Insert(d', s.order[k], s.events[s.order[k]]);
            r.Ok? && Merged(d, s, k + 1, r.value)
  {
    hide Fresh, WellFormed, Insert, Stored;
    var h := s.order[k];
    var e := s.events[h];
    NextIsFresh(d, s, k, d');
    NextIsTaken(d, s, k, d');
    InsertedBased(d', h, e);
    MergedHave(d, s, k, d');
    MergedLogs(d, s, k, d');
    InsertedRoots(d', h, e);
  }

  lemma {:induction false} InsertedRoots(d: Dag, h: Hash, e: Event)
    requires e.creator in d.logs
    ensures Stored(d, h, e).roots == d.roots
  {
  }

  /** What the step does to the logs. */
  lemma {:induction false} MergedLogs(d: Dag, s: Dag, k: nat, d': Dag)
    requires Compatible(d, s) && Merged(d, s, k, d') && k < |s.order|
    requires s.order[k] in s.events && s.events[s.order[k]].creator in d.logs && s.events[s.order[k]].creator in d'.logs
    requires s.events[s.order[k]].index >= |d.logs[s.events[s.order[k]].creator]|
    ensures var r := Stored(d', s.order[k], s.events[s.order[k]]);
            forall b :: b in d.roots ==>
               b in d.logs && b in s.logs && b in r.logs && d.logs[b] <= r.logs[b] <= Longer(d.logs[b], s.logs[b])
  {
    var h := s.order[k];
    var e := s.events[h];
    var c := e.creator;
    NextContinues(d, s, k, d');
    InLog(s, h);
    hide WellFormed;
    var r := Stored(d', h, e);
    assert s.logs[c][..e.index + 1] == s.logs[c][..e.index] + [h];
    forall b | b in d.roots ensures b in r.logs && d.logs[b] <= r.logs[b] <= Longer(d.logs[b], s.logs[b]) {
      assert d.logs[b] <= d'.logs[b] <= Longer(d.logs[b], s.logs[b]);
    }
  }

  /** What the step does to the events. */
  lemma {:induction false} MergedHave(d: Dag, s: Dag, k: nat, d': Dag)
    requires Compatible(d, s) && Merged(d, s, k, d') && k < |s.order| && s.order[k] in s.events
    requires s.order[k] !in d'.events && s.events[s.order[k]].creator in d'.logs
    ensures var r := Stored(d', s.order[k], s.events[s.order[k]]);
            && (forall h :: h in r.events <==> h in d.events || (h in s.topo && s.topo[h] < k + 1))
            && (forall h :: h in r.events && h in d.events ==> r.events[h] == d.events[h])
            && (forall h :: h in r.events && h in s.events ==> r.events[h] == s.events[h])
  {
    hide WellFormed;
    OrderAt(s, k);
  }

  lemma {:induction false} MergedSkip(d: Dag, s: Dag, k: nat, d': Dag)
    requires Compatible(d, s) && Merged(d, s, k, d') && k < |s.order|
    requires s.order[k] in s.events && s.events[s.order[k]].creator in d.logs
    requires s.events[s.order[k]].index < |d.logs[s.events[s.order[k]].creator]|
    ensures Merged(d, s, k + 1, d')
  {
    var h := s.order[k];
    OrderAt(s, k);
    InLog(s, h);
    LogEntry(d, s.events[h].creator, s.events[h].index);
    hide WellFormed;
    assert h in d.events;
  }

  /** Taking in the first `k` events of another part of the same history never fails. */
  lemma {:induction false} TakeMerges(d: Dag, s: Dag, k: nat)
    requires Compatible(d, s) && k <= |s.order| && AllStored(s, s.order) && d.logs.Keys <= d.roots.Keys
    ensures var r := Take(d, s.events, KnownEvents(d), s.order[..k]); r.Ok? && Merged(d, s, k, r.value)
  {
    hide Merged, Insert, Compatible, KnownEvents;
    if k == 0 {
      MergedBegin(d, s);
    } else {
      TakeMerges(d, s, k - 1);
      assert s.order[..k][..k - 1] == s.order[..k - 1];
      MergedStep(d, s, k - 1, Take(d, s.events, KnownEvents(d), s.order[..k - 1]).value);
    }
  }

  lemma {:induction false} MergedStep(d: Dag, s: Dag, k: nat, d': Dag)
    requires Compatible(d, s) && Merged(d, s, k, d') && k < |s.order| && s.order[k] in s.events
    requires d.logs.Keys <= d.roots.Keys
    ensures var h := s.order[k];
            if IsNewer(s.events[h], KnownEvents(d)) then
              Insert(d', h, s.events[h]).Ok? && Merged(d, s, k + 1, Insert(d', h, s.events[h]).value)
            else Merged(d, s, k + 1, d')
  {
    hide Merged, Insert, WellFormed, Compatible;
    var h := s.order[k];
    CompatibleParts(d, s, h);
    KnownIs(d, s.events[h].creator);
    if IsNewer(s.events[h], KnownEvents(d)) {
      MergedTake(d, s, k, d');
    } else {
      MergedSkip(d, s, k, d');
    }
  }

  lemma {:induction false} CompatibleParts(d: Dag, s: Dag, h: Hash)
    requires Compatible(d, s) && h in s.events
    ensures Based(d) && Based(s) && s.events[h].creator in d.roots && s.events[h].creator in d.logs
  {
    InLog(s, h);
    hide EventOk, LogOk;
  }

  /** What an exchange leaves: the events of both, and the longer of each two logs. */
  ghost predicate Union(d: Dag, s: Dag, d': Dag) {
    && Based(d') && d'.roots == d.roots
    && (forall h :: h in d'.events <==> h in d.events || h in s.events)
    && (forall h :: h in d.events ==> d'.events[h] == d.events[h])
    && (forall h :: h in s.events ==> d'.events[h] == s.events[h])
    && (forall c :: c in d.roots ==>
         c in d.logs && c in s.logs && c in d'.logs && d'.logs[c] == Longer(d.logs[c], s.logs[c]))
  }

  /** The whole of one exchange: however old the request, every event of the answer
      that is new is accepted, and the receiver ends up knowing of each
      participant as much as the better informed of the two. */
  lemma {:induction false} SyncAccepts(d: Dag, s: Dag, known: map<Creator, int>)
    requires Compatible(d, s) && d.logs.Keys <= d.roots.Keys && s.logs.Keys <= s.roots.Keys && AllStored(s, s.order)
    requires Covered(known, KnownEvents(d))
    ensures forall i :: 0 <= i < |EventDiff(s, known)| ==> EventDiff(s, known)[i] in s.events
    ensures Take(d, s.events, KnownEvents(d), EventDiff(s, known)).Ok?
    ensures var d' := Take(d, s.events, KnownEvents(d), EventDiff(s, known)).value;
            && Union(d, s, d') && d'.logs.Keys == d'.roots.Keys
            && (forall c :: c in d.roots ==> c in KnownEvents(d) && c in KnownEvents(s) && c in KnownEvents(d') &&
                                             KnownEvents(d')[c] == Max(KnownEvents(d)[c], KnownEvents(s)[c]))
  {
    hide Merged, Compatible, Union, Insert;
    TakeNewer(d, s.events, known, KnownEvents(d), s.order);
    TakeMerges(d, s, |s.order|);
    assert s.order[..|s.order|] == s.order;
    hide Take, Newer, WellFormed;
    var d' := Take(d, s.events, KnownEvents(d), s.order).value;
    AllMerged(d, s, d');
    UnionMerged(d, s, d');
    forall c | c in d.roots
      ensures c in KnownEvents(d) && c in KnownEvents(s) && c in KnownEvents(d')
      ensures KnownEvents(d')[c] == Max(KnownEvents(d)[c], KnownEvents(s)[c])
    {
      LogMerged(d, s, d', c);
      KnownMerged(d, s, d', c);
    }
  }

  lemma {:induction false} UnionMerged(d: Dag, s: Dag, d': Dag)
    requires Compatible(d, s) && Merged(d, s, |s.order|, d')
    ensures Union(d, s, d')
  {
    hide Merged, Compatible, Longer, WellFormed;
    AllMerged(d, s, d');
    forall c | c in d.roots
      ensures c in d.logs && c in s.logs && c in d'.logs && d'.logs[c] == Longer(d.logs[c], s.logs[c])
    {
      LogMerged(d, s, d', c);
    }
  }

  lemma {:induction false} KnownMerged(d: Dag, s: Dag, d': Dag, c: Creator)
    requires Compatible(d, s) && Based(d') && d'.roots == d.roots && c in d.roots
    requires c in d.logs && c in s.logs && c in d'.logs && d'.logs[c] == Longer(d.logs[c], s.logs[c])
    requires d.logs.Keys <= d.roots.Keys && s.logs.Keys <= s.roots.Keys && d'.logs.Keys <= d'.roots.Keys
    ensures c in KnownEvents(d) && c in KnownEvents(s) && c in KnownEvents(d')
    ensures KnownEvents(d')[c] == Max(KnownEvents(d)[c], KnownEvents(s)[c])
  {
    hide WellFormed;
    KnownIs(d, c);
    KnownIs(s, c);
    KnownIs(d', c);
  }

  lemma {:induction false} AllMerged(d: Dag, s: Dag, d': Dag)
    requires Compatible(d, s) && Merged(d, s, |s.order|, d')
    ensures Based(d') && d'.logs.Keys == d'.roots.Keys && d'.roots == d.roots
    ensures forall h :: h in d'.events <==> h in d.events || h in s.events
    ensures forall h :: h in d.events ==> d'.events[h] == d.events[h]
    ensures forall h :: h in s.events ==> d'.events[h] == s.events[h]
  {
    forall h | h in s.events ensures h in s.topo && s.topo[h] < |s.order| {
      InLog(s, h);
    }
    hide EventOk, LogOk;
  }

  lemma {:induction false} LogMerged(d: Dag, s: Dag, d': Dag, c: Creator)
    requires Compatible(d, s) && Merged(d, s, |s.order|, d') && c in d.roots
    requires forall h :: h in s.events ==> h in d'.events && d'.events[h] == s.events[h]
    ensures c in d.logs && c in s.logs && c in d'.logs && d'.logs[c] == Longer(d.logs[c], s.logs[c])
  {
    hide WellFormed;
    assert d.logs[c] <= d'.logs[c] <= Longer(d.logs[c], s.logs[c]);
    if |s.logs[c]| > |d.logs[c]| {
      var n := |s.logs[c]| - 1;
      LogEntry(s, c, n);
      InLog(d', s.logs[c][n]);
    }
  }
}
