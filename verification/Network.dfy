/** A network of honest nodes that gossip: events are created, requests and answers
    are sent, and any answer may arrive at any later time, any number of times or never. */
module Networks {
  import opened Dags
  import opened Rounds
  import opened Fame
  import opened Consensus
  import opened Gossip

  /** A node's known map, as it was when it asked. */
  datatype Request = Request(from: Creator, known: map<Creator, int>)

  /** The events that travel are EventDiff(sent, known), `sent` being what the sender held when it answered. */
  datatype Answer = Answer(to: Creator, known: map<Creator, int>, sent: Dag)

  datatype Network = Network(nodes: map<Creator, Dag>, requests: set<Request>, answers: set<Answer>)

  datatype Step =
    | Create(n: Creator, h: Hash, e: Event)
    | Ask(n: Creator)
    | Reply(m: Creator, q: Request)
    | Deliver(a: Answer)

  /** What the receiver holds after an answer: everything up to the first refused event. */
  function Kept(d: Dag, events: map<Hash, Event>, mine: map<Creator, int>, list: seq<Hash>): Dag
    requires forall i :: 0 <= i < |list| ==> list[i] in events
  {
    if Take(d, events, mine, list).Ok? then Take(d, events, mine, list).value
    else Kept(d, events, mine, list[..|list| - 1])
  }

  ghost predicate Usable(d: Dag) {
    d.logs.Keys <= d.roots.Keys && AllStored(d, d.order)
  }

  lemma {:induction false} NewerStored(events: map<Hash, Event>, known: map<Creator, int>, list: seq<Hash>)
    requires forall i :: 0 <= i < |list| ==> list[i] in events
    ensures forall i :: 0 <= i < |Newer(events, known, list)| ==> Newer(events, known, list)[i] in events
  {
    if list != [] {
      NewerStored(events, known, list[..|list| - 1]);
    }
  }

  ghost predicate Moves(w: Network, step: Step, w': Network) {
    match step
    case Create(n, h, e) =>
      && n in w.nodes && e.creator == n
      && Insert(w.nodes[n], h, e).Ok? && Fresh(w.nodes[n], h, e)
      && (forall m :: m in w.nodes ==> h !in w.nodes[m].events)
      && w' == w.(nodes := w.nodes[n := Insert(w.nodes[n], h, e).value])
    case Ask(n) =>
      && n in w.nodes && Usable(w.nodes[n])
      && w' == w.(requests := w.requests + {Request(n, KnownEvents(w.nodes[n]))})
    case Reply(m, q) =>
      && m in w.nodes && q in w.requests
      && w' == w.(answers := w.answers + {Answer(q.from, q.known, w.nodes[m])})
    case Deliver(a) =>
      && a in w.answers && a.to in w.nodes && Usable(w.nodes[a.to]) && Usable(a.sent)
      && (NewerStored(a.sent.events, a.known, a.sent.order);
          var d := w.nodes[a.to];
          w' == w.(nodes := w.nodes[a.to := Kept(d, a.sent.events, KnownEvents(d), EventDiff(a.sent, a.known))]))
  }

  // ---------------------------------------------------------------- what every step keeps

  ghost predicate HoldsPrefixes(d: Dag, nodes: map<Creator, Dag>) {
    forall c :: c in nodes ==> c in d.logs && c in nodes[c].logs && d.logs[c] <= nodes[c].logs[c]
  }

  ghost predicate Owned(e: Event, h: Hash, nodes: map<Creator, Dag>) {
    e.creator in nodes && h in nodes[e.creator].events && nodes[e.creator].events[h] == e
  }

  ghost predicate AllOwned(d: Dag, nodes: map<Creator, Dag>) {
    forall h :: h in d.events ==> Owned(d.events[h], h, nodes)
  }

  /** `d` holds a prefix of every participant's own log, and only their events. */
  ghost predicate PartOf(d: Dag, nodes: map<Creator, Dag>) {
    Based(d) && d.roots.Keys == nodes.Keys && HoldsPrefixes(d, nodes) && AllOwned(d, nodes)
  }

  /** Every node holds part of one history, in which a digest names one event. */
  ghost predicate Consistent(nodes: map<Creator, Dag>) {
    && (forall n :: n in nodes ==> PartOf(nodes[n], nodes))
    && (forall m, n, h :: m in nodes && n in nodes && h in nodes[m].events && h in nodes[n].events ==>
         nodes[m].events[h] == nodes[n].events[h])
  }

  /** The known map of a request or an answer is one its author had then. */
  ghost predicate Stale(known: map<Creator, int>, d: Dag) {
    Based(d) && d.logs.Keys <= d.roots.Keys && Covered(known, KnownEvents(d))
  }

  ghost predicate Safe(w: Network) {
    && Consistent(w.nodes)
    && (forall q :: q in w.requests ==> q.from in w.nodes && Stale(q.known, w.nodes[q.from]))
    && (forall a :: a in w.answers ==> a.to in w.nodes && Stale(a.known, w.nodes[a.to]) && PartOf(a.sent, w.nodes))
  }

  lemma {:induction false} BasedIsUsable(d: Dag)
    requires Based(d)
    ensures Usable(d) && d.logs.Keys == d.roots.Keys
  {
    hide EventOk, LogOk;
  }

  lemma {:induction false} SameBase(d: Dag, s: Dag)
    requires Based(d) && Based(s) && d.roots.Keys == s.roots.Keys
    ensures d.roots == s.roots
  {
    hide WellFormed;
    forall c | c in d.roots ensures c in s.roots && d.roots[c] == s.roots[c] {
      assert c in s.roots.Keys;
      assert d.roots[c] == BaseRoot(c) && s.roots[c] == BaseRoot(c);
    }
  }

  /** Any two parts of the history are compatible. */
  lemma {:induction false} PartsCompatible(nodes: map<Creator, Dag>, d: Dag, s: Dag)
    requires Consistent(nodes) && PartOf(d, nodes) && PartOf(s, nodes)
    ensures Compatible(d, s)
  {
    hide WellFormed;
    SameBase(d, s);
    forall h | h in d.events && h in s.events ensures d.events[h] == s.events[h] {
      var b, c := d.events[h].creator, s.events[h].creator;
      assert nodes[b].events[h] == nodes[c].events[h];
    }
    forall c | c in d.roots ensures c in d.logs && c in s.logs && (d.logs[c] <= s.logs[c] || s.logs[c] <= d.logs[c]) {
      assert c in nodes;
      PrefixesComparable(d.logs[c], s.logs[c], nodes[c].logs[c]);
    }
  }

  lemma {:induction false} PrefixesComparable<T>(a: seq<T>, b: seq<T>, c: seq<T>)
    requires a <= c && b <= c
    ensures a <= b || b <= a
  {
    if |a| <= |b| {
      assert a == b[..|a|];
    } else {
      assert b == a[..|b|];
    }
  }

  // ---------------------------------------------------------------- growth of one node

  /** `d'` extends `d`, and its owner's log is where new entries may be. */
  ghost predicate Extends(d: Dag, d': Dag) {
    && Based(d) && Based(d') && d'.roots == d.roots
    && (forall c :: c in d.roots ==> c in d.logs && c in d'.logs && d.logs[c] <= d'.logs[c])
    && (forall h :: h in d.events ==> h in d'.events && d'.events[h] == d.events[h])
  }

  lemma {:induction false} PartStays(d: Dag, nodes: map<Creator, Dag>, n: Creator, d': Dag)
    requires n in nodes && PartOf(d, nodes) && Extends(nodes[n], d') && n in nodes[n].roots
    ensures PartOf(d, nodes[n := d'])
  {
    hide WellFormed;
    var nodes' := nodes[n := d'];
    assert nodes'.Keys == nodes.Keys;
    forall c | c in nodes' ensures c in d.logs && c in nodes'[c].logs && d.logs[c] <= nodes'[c].logs[c] {
      assert c in nodes && d.logs[c] <= nodes[c].logs[c];
      if c == n {
        PrefixTrans(d.logs[c], nodes[c].logs[c], d'.logs[c]);
      }
    }
  }

  lemma {:induction false} PrefixTrans<T>(a: seq<T>, b: seq<T>, c: seq<T>)
    requires a <= b && b <= c
    ensures a <= c
  {
  }

  lemma {:induction false} StaleStays(known: map<Creator, int>, d: Dag, d': Dag)
    requires Stale(known, d) && Extends(d, d')
    ensures Stale(known, d')
  {
    hide WellFormed;
    BasedIsUsable(d);
    BasedIsUsable(d');
    assert KnownEvents(d').Keys == KnownEvents(d).Keys;
    forall c | c in known ensures known[c] <= KnownEvents(d')[c] {
      KnownIs(d, c);
      KnownIs(d', c);
    }
  }

  /** A node may grow as long as it stays part of the history. */
  lemma {:induction false} NodeGrows(w: Network, n: Creator, d': Dag)
    requires Safe(w) && n in w.nodes && Extends(w.nodes[n], d') && PartOf(d', w.nodes[n := d'])
    requires forall m, h :: m in w.nodes && h in w.nodes[m].events && h in d'.events ==>
               w.nodes[m].events[h] == d'.events[h]
    ensures Safe(w.(nodes := w.nodes[n := d']))
  {
    hide PartOf, Stale, Extends;
    var nodes' := w.nodes[n := d'];
    OwnRoot(w.nodes, n);
    forall m | m in nodes' ensures PartOf(nodes'[m], nodes') {
      if m != n {
        PartStays(w.nodes[m], w.nodes, n, d');
      }
    }
    forall a | a in w.answers ensures a.to in nodes' && Stale(a.known, nodes'[a.to]) && PartOf(a.sent, nodes') {
      PartStays(a.sent, w.nodes, n, d');
      if a.to == n {
        StaleStays(a.known, w.nodes[n], d');
      }
    }
    forall q | q in w.requests ensures q.from in nodes' && Stale(q.known, nodes'[q.from]) {
      if q.from == n {
        StaleStays(q.known, w.nodes[n], d');
      }
    }
  }

  lemma {:induction false} OwnRoot(nodes: map<Creator, Dag>, n: Creator)
    requires Consistent(nodes) && n in nodes
    ensures n in nodes[n].roots && PartOf(nodes[n], nodes) && Based(nodes[n])
  {
    hide WellFormed;
    assert n in nodes.Keys;
  }

  // ---------------------------------------------------------------- creating an event

  lemma {:induction false} InsertExtends(d: Dag, h: Hash, e: Event)
    requires Based(d) && Fresh(d, h, e) && Insert(d, h, e).Ok?
    ensures Extends(d, Insert(d, h, e).value)
  {
    InsertedBased(d, h, e);
    BasedIsUsable(d);
    hide WellFormed, Insert;
  }

  lemma {:induction false} CreateSafe(w: Network, n: Creator, h: Hash, e: Event)
    requires Safe(w) && n in w.nodes && e.creator == n && Insert(w.nodes[n], h, e).Ok? && Fresh(w.nodes[n], h, e)
    requires forall m :: m in w.nodes ==> h !in w.nodes[m].events
    ensures Safe(w.(nodes := w.nodes[n := Insert(w.nodes[n], h, e).value]))
  {
    hide Stale, Insert, Fresh, Stored, Extends, PartOf;
    var d := w.nodes[n];
    OwnRoot(w.nodes, n);
    InsertExtends(d, h, e);
    CreatedPart(w.nodes, n, h, e);
    CreatedAgrees(w.nodes, n, h, e);
    NodeGrows(w, n, Insert(d, h, e).value);
  }

  lemma {:induction false} CreatedAgrees(nodes: map<Creator, Dag>, n: Creator, h: Hash, e: Event)
    requires Consistent(nodes) && n in nodes && Based(nodes[n]) && Insert(nodes[n], h, e).Ok? && Fresh(nodes[n], h, e)
    requires forall m :: m in nodes ==> h !in nodes[m].events
    ensures var d' := Insert(nodes[n], h, e).value;
            forall m, x :: m in nodes && x in nodes[m].events && x in d'.events ==> nodes[m].events[x] == d'.events[x]
  {
    InsertedBased(nodes[n], h, e);
    hide WellFormed, Insert, PartOf;
  }

  lemma {:induction false} CreatedPart(nodes: map<Creator, Dag>, n: Creator, h: Hash, e: Event)
    requires Consistent(nodes) && n in nodes && e.creator == n && Based(nodes[n]) && PartOf(nodes[n], nodes)
    requires Insert(nodes[n], h, e).Ok? && Fresh(nodes[n], h, e)
    ensures var d' := Insert(nodes[n], h, e).value; PartOf(d', nodes[n := d'])
  {
    hide WellFormed, Insert, Stored, Consistent, HoldsPrefixes, AllOwned, Fresh;
    InsertedBased(nodes[n], h, e);
    CreatedPrefixes(nodes, n, h, e);
    CreatedOwned(nodes, n, h, e);
    InsertedRoots(nodes[n], h, e);
    assert nodes[n := Stored(nodes[n], h, e)].Keys == nodes.Keys;
  }

  lemma {:induction false} CreatedPrefixes(nodes: map<Creator, Dag>, n: Creator, h: Hash, e: Event)
    requires n in nodes && e.creator == n && n in nodes[n].logs && HoldsPrefixes(nodes[n], nodes)
    ensures var d' := Stored(nodes[n], h, e); HoldsPrefixes(d', nodes[n := d'])
  {
    var d, d' := nodes[n], Stored(nodes[n], h, e);
    var nodes' := nodes[n := d'];
    forall c | c in nodes' ensures c in d'.logs && c in nodes'[c].logs && d'.logs[c] <= nodes'[c].logs[c] {
      assert c in nodes && d.logs[c] <= nodes[c].logs[c];
    }
  }

  lemma {:induction false} CreatedOwned(nodes: map<Creator, Dag>, n: Creator, h: Hash, e: Event)
    requires n in nodes && e.creator == n && n in nodes[n].logs && AllOwned(nodes[n], nodes) && Fresh(nodes[n], h, e)
    ensures var d' := Stored(nodes[n], h, e); AllOwned(d', nodes[n := d'])
  {
  }

  // ---------------------------------------------------------------- delivering an answer

  /** In a safe network every event of every answer in flight that is new to the
      receiver is accepted, and the receiver ends with the pointwise maximum. */
  lemma {:induction false} AnswerAccepted(w: Network, a: Answer)
    requires Safe(w) && a in w.answers
    ensures a.to in w.nodes && Usable(w.nodes[a.to]) && Usable(a.sent) && Compatible(w.nodes[a.to], a.sent)
    ensures forall i :: 0 <= i < |EventDiff(a.sent, a.known)| ==> EventDiff(a.sent, a.known)[i] in a.sent.events
    ensures var d := w.nodes[a.to];
            var r := Take(d, a.sent.events, KnownEvents(d), EventDiff(a.sent, a.known));
            && r.Ok? && Usable(r.value)
            && forall c :: c in d.roots ==>
                 c in KnownEvents(d) && c in KnownEvents(a.sent) && c in KnownEvents(r.value) &&
                                            KnownEvents(r.value)[c] == Max(KnownEvents(d)[c], KnownEvents(a.sent)[c])
  {
    hide Consistent, WellFormed, Take, EventDiff, Insert, Longer;
    var d := w.nodes[a.to];
    OwnRoot(w.nodes, a.to);
    PartsCompatible(w.nodes, d, a.sent);
    BasedIsUsable(d);
    BasedIsUsable(a.sent);
    SyncAccepts(d, a.sent, a.known);
    BasedIsUsable(Take(d, a.sent.events, KnownEvents(d), EventDiff(a.sent, a.known)).value);
  }

  lemma {:induction false} DeliverSafe(w: Network, a: Answer, w': Network)
    requires Safe(w) && Moves(w, Deliver(a), w')
    ensures Safe(w')
  {
    hide Safe, Based, Take, Kept, EventDiff, KnownEvents, Compatible;
    AnswerAccepted(w, a);
    var d := w.nodes[a.to];
    KeptAll(d, a.sent.events, KnownEvents(d), EventDiff(a.sent, a.known));
    DeliveredGrows(w, a, Take(d, a.sent.events, KnownEvents(d), EventDiff(a.sent, a.known)).value);
  }

  lemma {:induction false} KeptAll(d: Dag, events: map<Hash, Event>, mine: map<Creator, int>, list: seq<Hash>)
    requires (forall i :: 0 <= i < |list| ==> list[i] in events) && Take(d, events, mine, list).Ok?
    ensures Kept(d, events, mine, list) == Take(d, events, mine, list).value
  {
    hide Take;
  }

  lemma {:induction false} DeliveredGrows(w: Network, a: Answer, d': Dag)
    requires Safe(w) && a in w.answers && a.to in w.nodes && Usable(w.nodes[a.to]) && Usable(a.sent)
    requires Compatible(w.nodes[a.to], a.sent)
    requires forall i :: 0 <= i < |EventDiff(a.sent, a.known)| ==> EventDiff(a.sent, a.known)[i] in a.sent.events
    requires Take(w.nodes[a.to], a.sent.events, KnownEvents(w.nodes[a.to]), EventDiff(a.sent, a.known)) == Ok(d')
    ensures Safe(w.(nodes := w.nodes[a.to := d']))
  {
    assert PartOf(a.sent, w.nodes) && Stale(a.known, w.nodes[a.to]) && Consistent(w.nodes);
    assert Covered(a.known, KnownEvents(w.nodes[a.to]));
    hide Safe, Take, EventDiff, Insert, WellFormed, Consistent, Stale, PartOf, Extends, Compatible, Union, Covered;
    hide KnownEvents;
    var d := w.nodes[a.to];
    SyncAccepts(d, a.sent, a.known);
    OwnRoot(w.nodes, a.to);
    MergedExtends(d, a.sent, d');
    MergedPart(w.nodes, a.to, a.sent, d');
    MergedAgrees(w.nodes, a.to, a.sent, d');
    NodeGrows(w, a.to, d');
  }

  lemma {:induction false} MergedExtends(d: Dag, s: Dag, d': Dag)
    requires Compatible(d, s) && Union(d, s, d')
    ensures Extends(d, d')
  {
    hide WellFormed;
  }

  lemma {:induction false} MergedOwned(nodes: map<Creator, Dag>, n: Creator, s: Dag, d': Dag, h: Hash)
    requires n in nodes && PartOf(nodes[n], nodes) && PartOf(s, nodes) && Union(nodes[n], s, d') && h in d'.events
    ensures Owned(d'.events[h], h, nodes)
  {
    hide WellFormed, Longer, HoldsPrefixes, Owned;
    assert h in nodes[n].events || h in s.events;
  }

  lemma {:induction false} MergedOwns(nodes: map<Creator, Dag>, n: Creator, s: Dag, d': Dag)
    requires n in nodes && PartOf(nodes[n], nodes) && PartOf(s, nodes) && Union(nodes[n], s, d')
    ensures AllOwned(d', nodes[n := d'])
  {
    hide WellFormed, PartOf, Union;
    forall h | h in d'.events ensures Owned(d'.events[h], h, nodes[n := d']) {
      MergedOwned(nodes, n, s, d', h);
    }
  }

  lemma {:induction false} MergedLog(nodes: map<Creator, Dag>, n: Creator, s: Dag, d': Dag, c: Creator)
    requires n in nodes && PartOf(nodes[n], nodes) && PartOf(s, nodes) && Union(nodes[n], s, d') && c in nodes
    ensures c in d'.logs && c in nodes[c].logs && d'.logs[c] <= nodes[c].logs[c]
    ensures c == n ==> d'.logs[c] == nodes[n].logs[c]
  {
    hide WellFormed, AllOwned;
    assert c in nodes[n].roots.Keys;
    assert nodes[n].logs[c] <= nodes[c].logs[c] && s.logs[c] <= nodes[c].logs[c];
  }

  lemma {:induction false} MergedPrefixes(nodes: map<Creator, Dag>, n: Creator, s: Dag, d': Dag)
    requires n in nodes && PartOf(nodes[n], nodes) && PartOf(s, nodes) && Union(nodes[n], s, d')
    ensures HoldsPrefixes(d', nodes[n := d'])
  {
    hide WellFormed, PartOf, Union;
    var nodes' := nodes[n := d'];
    forall c | c in nodes' ensures c in d'.logs && c in nodes'[c].logs && d'.logs[c] <= nodes'[c].logs[c] {
      MergedLog(nodes, n, s, d', c);
    }
  }

  lemma {:induction false} MergedPart(nodes: map<Creator, Dag>, n: Creator, s: Dag, d': Dag)
    requires n in nodes && PartOf(nodes[n], nodes) && PartOf(s, nodes) && Union(nodes[n], s, d')
    ensures PartOf(d', nodes[n := d'])
  {
    hide WellFormed, HoldsPrefixes, AllOwned;
    MergedOwns(nodes, n, s, d');
    MergedPrefixes(nodes, n, s, d');
    assert nodes[n := d'].Keys == nodes.Keys;
  }

  lemma {:induction false} MergedAgrees(nodes: map<Creator, Dag>, n: Creator, s: Dag, d': Dag)
    requires Consistent(nodes) && n in nodes && PartOf(nodes[n], nodes) && PartOf(s, nodes) && Union(nodes[n], s, d')
    ensures forall m, h :: m in nodes && h in nodes[m].events && h in d'.events ==> nodes[m].events[h] == d'.events[h]
  {
    hide WellFormed, Union, PartOf;
    forall m, h | m in nodes && h in nodes[m].events && h in d'.events ensures nodes[m].events[h] == d'.events[h] {
      MergedOwned(nodes, n, s, d', h);
      assert h in nodes[d'.events[h].creator].events;
    }
  }

  // ---------------------------------------------------------------- runs

  /** Nobody has an event yet. `sizes` gives each participant the size of its store's cache. */
  function Empty(sizes: map<Creator, nat>): Network {
    Network(map c | c in sizes :: Initial(sizes.Keys, sizes[c]).dag, {}, {})
  }

  lemma {:induction false} EmptySafe(sizes: map<Creator, nat>)
    ensures Safe(Empty(sizes))
  {
    hide PartOf;
    forall c | c in sizes ensures PartOf(Empty(sizes).nodes[c], Empty(sizes).nodes) {
      EmptyPart(sizes, c);
    }
  }

  lemma {:induction false} EmptyPart(sizes: map<Creator, nat>, c: Creator)
    requires c in sizes
    ensures PartOf(Empty(sizes).nodes[c], Empty(sizes).nodes)
  {
    hide Based;
    InitialBased(sizes.Keys, sizes[c]);
    assert Initial(sizes.Keys, sizes[c]).dag.roots.Keys == sizes.Keys == Empty(sizes).nodes.Keys;
  }

  lemma {:induction false} StepSafe(w: Network, step: Step, w': Network)
    requires Safe(w) && Moves(w, step, w')
    ensures Safe(w')
  {
    hide Safe, Insert, Fresh, Kept, KnownEvents, EventDiff;
    match step
    case Create(n, h, e) => CreateSafe(w, n, h, e);
    case Ask(n) => AskSafe(w, n);
    case Reply(m, q) => ReplySafe(w, m, q);
    case Deliver(a) => DeliverSafe(w, a, w');
  }

  lemma {:induction false} AskSafe(w: Network, n: Creator)
    requires Safe(w) && n in w.nodes && Usable(w.nodes[n])
    ensures Safe(w.(requests := w.requests + {Request(n, KnownEvents(w.nodes[n]))}))
  {
    hide PartOf, WellFormed;
    OwnRoot(w.nodes, n);
  }

  lemma {:induction false} ReplySafe(w: Network, m: Creator, q: Request)
    requires Safe(w) && m in w.nodes && q in w.requests
    ensures Safe(w.(answers := w.answers + {Answer(q.from, q.known, w.nodes[m])}))
  {
    hide PartOf, Stale;
  }

  ghost predicate IsRun(sizes: map<Creator, nat>, run: seq<Network>, steps: seq<Step>) {
    && |run| == |steps| + 1 && run[0] == Empty(sizes)
    && forall i :: 0 <= i < |steps| ==> Moves(run[i], steps[i], run[i + 1])
  }

  lemma {:induction false} RunSafe(sizes: map<Creator, nat>, run: seq<Network>, steps: seq<Step>, i: nat)
    requires IsRun(sizes, run, steps) && i < |run|
    ensures Safe(run[i])
  {
    hide Safe, Moves;
    if i == 0 {
      EmptySafe(sizes);
    } else {
      RunSafe(sizes, run, steps, i - 1);
      StepSafe(run[i - 1], steps[i - 1], run[i]);
    }
  }

  /** The parents of every event are there, or are its creator's root. */
  ghost predicate ParentClosed(d: Dag) {
    forall h :: h in d.events ==>
      var e := d.events[h];
      && (e.selfParent in d.events || e.selfParent == RootHash(e.creator))
      && (e.otherParent == NoHash || e.otherParent in d.events)
  }

  lemma {:induction false} BasedIsClosed(d: Dag)
    requires Based(d)
    ensures ParentClosed(d)
  {
    hide WellFormed;
    forall h | h in d.events ensures var e := d.events[h];
                                     && (e.selfParent in d.events || e.selfParent == RootHash(e.creator))
                                     && (e.otherParent == NoHash || e.otherParent in d.events) {
      InLog(d, h);
      if d.events[h].index > 0 {
        LogEntry(d, d.events[h].creator, d.events[h].index - 1);
      }
    }
  }

  /** In every reachable state, each node's log of each participant is a prefix of
      that participant's own log, and what each node holds is closed under parents. */
  lemma {:induction false} GossipSafety(sizes: map<Creator, nat>, run: seq<Network>, steps: seq<Step>, i: nat,
                                        n: Creator, c: Creator)
    requires IsRun(sizes, run, steps) && i < |run| && n in run[i].nodes && c in run[i].nodes
    ensures var nodes := run[i].nodes;
            c in nodes[n].logs && c in nodes[c].logs && nodes[n].logs[c] <= nodes[c].logs[c] && ParentClosed(nodes[n])
  {
    RunSafe(sizes, run, steps, i);
    hide WellFormed;
    BasedIsClosed(run[i].nodes[n]);
  }

  /** In every reachable state, no answer in flight can fail, however late it arrives:
      delivering it raises the receiver's known map to the pointwise maximum. */
  lemma {:induction false} GossipAccepts(sizes: map<Creator, nat>, run: seq<Network>, steps: seq<Step>, i: nat,
                                         a: Answer, c: Creator)
    requires IsRun(sizes, run, steps) && i < |steps| && steps[i] == Deliver(a)
    requires a.to in run[i].nodes && c in run[i].nodes[a.to].roots
    ensures a.to in run[i + 1].nodes && Usable(run[i].nodes[a.to]) && Usable(a.sent) && Usable(run[i + 1].nodes[a.to])
    ensures var d, d' := run[i].nodes[a.to], run[i + 1].nodes[a.to];
            && c in KnownEvents(d) && c in KnownEvents(a.sent) && c in KnownEvents(d')
            && KnownEvents(d')[c] == Max(KnownEvents(d)[c], KnownEvents(a.sent)[c])
  {
    hide Safe, Based, Take, Kept, EventDiff, KnownEvents, Compatible;
    RunSafe(sizes, run, steps, i);
    assert Moves(run[i], steps[i], run[i + 1]);
    AnswerAccepted(run[i], a);
    var d := run[i].nodes[a.to];
    KeptAll(d, a.sent.events, KnownEvents(d), EventDiff(a.sent, a.known));
  }

  // ---------------------------------------------------------------- what two nodes agree on

  /** Everything two nodes hold, as the first would hold it after hearing from the second. */
  ghost function Joint(w: Network, m: Creator, n: Creator): (d: Dag)
    requires Safe(w) && m in w.nodes && n in w.nodes
    ensures Based(d) && SubDag(w.nodes[m], d) && SubDag(w.nodes[n], d)
  {
    var a, b := w.nodes[m], w.nodes[n];
    OwnRoot(w.nodes, m);
    OwnRoot(w.nodes, n);
    PartsCompatible(w.nodes, a, b);
    BasedIsUsable(a);
    BasedIsUsable(b);
    TakeMerges(a, b, |b.order|);
    var d := Take(a, b.events, KnownEvents(a), b.order[..|b.order|]).value;
    UnionMerged(a, b, d);
    UnionContains(a, b, d);
    d
  }

  lemma {:induction false} UnionContains(a: Dag, b: Dag, d: Dag)
    requires Compatible(a, b) && Union(a, b, d)
    ensures Based(d) && SubDag(a, d) && SubDag(b, d)
  {
    hide WellFormed, Longer;
  }

  /** In every reachable state two nodes give an event they both hold the same round, witness flag and timestamp. */
  lemma {:induction false} NodesAgree(sizes: map<Creator, nat>, run: seq<Network>, steps: seq<Step>, i: nat, m: Creator,
                                      n: Creator, x: Hash)
    requires IsRun(sizes, run, steps) && i < |run| && m in run[i].nodes && n in run[i].nodes
    requires x in run[i].nodes[m].events && x in run[i].nodes[n].events
    ensures var a, b := run[i].nodes[m], run[i].nodes[n];
            && Based(a) && Based(b) && a.events[x] == b.events[x]
            && Round(a, x) == Round(b, x) && (Witness(a, x) <==> Witness(b, x)) && Lamport(a, x) == Lamport(b, x)
  {
    hide WellFormed, Round, Witness, Lamport, Moves, PartOf;
    RunSafe(sizes, run, steps, i);
    var a, b := run[i].nodes[m], run[i].nodes[n];
    OwnRoot(run[i].nodes, m);
    OwnRoot(run[i].nodes, n);
    PartsCompatible(run[i].nodes, a, b);
    RoundAgree(a, b, x);
    LamportAgree(a, b, x);
  }

  /** Nor do they ever settle a witness's fame differently, as long as votes converge on what they hold between them. */
  lemma {:induction false} NodesAgreeOnFame(w: Network, m: Creator, n: Creator, x: Hash, y1: Hash, y2: Hash,
                                            v1: bool, v2: bool)
    requires Safe(w) && m in w.nodes && n in w.nodes && Based(w.nodes[m]) && Based(w.nodes[n])
    requires x in Joint(w, m, n).events && OneWitnessPerCreator(Joint(w, m, n)) && StrongQuorums(Joint(w, m, n), x)
    requires Ballot(w.nodes[m], x, y1) && Decides(w.nodes[m], x, y1, v1)
    requires Ballot(w.nodes[n], x, y2) && Decides(w.nodes[n], x, y2, v2)
    ensures v1 == v2
  {
    hide Safe, Joint, Based, Ballot, Decides, OneWitnessPerCreator, StrongQuorums, SubDag;
    FameAgreement(Joint(w, m, n), w.nodes[m], w.nodes[n], x, y1, y2, v1, v2);
  }
}
