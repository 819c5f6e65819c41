/** The network with the whole consensus state in every node: gossip and consensus passes, in any
    order, and what any two nodes have committed. */
module Replicas {
  import opened Dags
  import opened Rounds
  import opened Fame
  import opened Consensus
  import opened ConsensusInsert
  import opened ConsensusDecide
  import opened ConsensusPasses
  import opened CommitOrder
  import opened Agreement
  import opened Causality
  import opened Gossip
  import Networks

  datatype System = System(states: map<Creator, State>, requests: set<Networks.Request>, answers: set<Networks.Answer>)

  datatype Turn =
    | Gossiping(step: Networks.Step)
    | Deciding(n: Creator, divided: State, voted: State, received: State)

  /** What the nodes hold and what is under way. */
  function Graphs(w: System): Networks.Network {
    Networks.Network(map c | c in w.states :: w.states[c].dag, w.requests, w.answers)
  }

  /** The node after an answer: each event that is newer than what it knew goes through InsertEvent,
      up to the first that is refused. */
  function TakeStates(s: State, events: map<Hash, Event>, mine: map<Creator, int>, list: seq<Hash>): (t: State)
    requires forall i :: 0 <= i < |list| ==> list[i] in events
    ensures t.dag == Networks.Kept(s.dag, events, mine, list)
  {
    if list == [] then s
    else
      var n := |list| - 1;
      var t := TakeStates(s, events, mine, list[..n]);
      if Take(s.dag, events, mine, list).Ok? && IsNewer(events[list[n]], mine) then
        InsertedState(t, list[n], events[list[n]])
      else t
  }

  /** How the states follow a step of gossip. */
  ghost predicate Follows(w: System, step: Networks.Step, w': System)
    requires Networks.Moves(Graphs(w), step, Graphs(w'))
  {
    match step
    case Create(n, h, e) => w'.states == w.states[n := InsertedState(w.states[n], h, e)]
    case Ask(n) => w'.states == w.states
    case Reply(m, q) => w'.states == w.states
    case Deliver(a) =>
      var s := w.states[a.to];
      Networks.NewerStored(a.sent.events, a.known, a.sent.order);
      w'.states == w.states[a.to := TakeStates(s, a.sent.events, KnownEvents(s.dag), EventDiff(a.sent, a.known))]
  }

  ghost predicate Turns(w: System, turn: Turn, w': System) {
    match turn
    case Gossiping(step) => Networks.Moves(Graphs(w), step, Graphs(w')) && Follows(w, step, w')
    case Deciding(n, s1, s2, s3) =>
      && n in w.states && n in w'.states && Passes(w.states[n], s1, s2, s3, w'.states[n])
      && w' == w.(states := w.states[n := w'.states[n]])
  }

  // ---------------------------------------------------------------- each node runs

  /** Some run of insertions and passes ends in `s`. */
  ghost predicate Reached(participants: set<Creator>, s: State) {
    exists run, steps :: IsRun(participants, run, steps) && |run| > 0 && run[|run| - 1] == s
  }

  lemma {:induction false} ReachedNext(participants: set<Creator>, s: State, step: Step, s': State)
    requires Reached(participants, s) && Moves(s, step, s')
    ensures Reached(participants, s')
  {
    hide Moves, Initial;
    var run, steps :| IsRun(participants, run, steps) && |run| > 0 && run[|run| - 1] == s;
    var run', steps' := run + [s'], steps + [step];
    forall i | 0 <= i < |steps'| ensures Moves(run'[i], steps'[i], run'[i + 1]) {
      if i < |steps| {
        assert Moves(run[i], steps[i], run[i + 1]);
      }
    }
    assert IsRun(participants, run', steps') && |run'| > 0 && run'[|run'| - 1] == s';
  }

  lemma {:induction false} ReachedFirst(participants: set<Creator>, size: nat)
    ensures Reached(participants, Initial(participants, size))
  {
    hide Moves;
    assert IsRun(participants, [Initial(participants, size)], []);
  }

  /** Leaving out what the receiver knows makes no difference. */
  lemma {:induction false} TakeStatesNewer(s: State, events: map<Hash, Event>, known: map<Creator, int>,
                                           mine: map<Creator, int>, list: seq<Hash>)
    requires Covered(known, mine) && forall i :: 0 <= i < |list| ==> list[i] in events
    requires Take(s.dag, events, mine, list).Ok?
    ensures forall i :: 0 <= i < |Newer(events, known, list)| ==> Newer(events, known, list)[i] in events
    ensures TakeStates(s, events, mine, Newer(events, known, list)) == TakeStates(s, events, mine, list)
  {
    if list != [] {
      var n := |list| - 1;
      TakeStatesNewer(s, events, known, mine, list[..n]);
      TakeNewer(s.dag, events, known, mine, list[..n]);
      TakeNewer(s.dag, events, known, mine, list);
      var newer := Newer(events, known, list);
      if IsNewer(events[list[n]], known) {
        assert newer[..|newer| - 1] == Newer(events, known, list[..n]);
      } else {
        assert newer == Newer(events, known, list[..n]);
      }
    }
  }

  lemma {:induction false} TakeStep(d: Dag, s: Dag, k: nat, d': Dag)
    requires Compatible(d, s) && Merged(d, s, k, d') && k < |s.order| && s.order[k] in s.events
    requires d.logs.Keys <= d.roots.Keys
    requires IsNewer(s.events[s.order[k]], KnownEvents(d))
    ensures Fresh(d', s.order[k], s.events[s.order[k]]) && Insert(d', s.order[k], s.events[s.order[k]]).Ok?
  {
    hide Merged, Insert, Fresh, WellFormed, Compatible;
    CompatibleParts(d, s, s.order[k]);
    KnownIs(d, s.events[s.order[k]].creator);
    NextIsFresh(d, s, k, d');
    NextIsTaken(d, s, k, d');
  }

  /** Taking in part of another node's history is a run of insertions. */
  lemma {:induction false} TakeReached(participants: set<Creator>, t: State, s: Dag, k: nat)
    requires Reached(participants, t) && Compatible(t.dag, s) && k <= |s.order| && AllStored(s, s.order)
    requires t.dag.logs.Keys <= t.dag.roots.Keys
    ensures Take(t.dag, s.events, KnownEvents(t.dag), s.order[..k]).Ok?
    ensures Reached(participants, TakeStates(t, s.events, KnownEvents(t.dag), s.order[..k]))
  {
    hide Reached, Compatible, Merged, Insert, Fresh, KnownEvents, Networks.Kept, IsNewer;
    TakeMerges(t.dag, s, k);
    if k > 0 {
      var mine := KnownEvents(t.dag);
      var h, list := s.order[k - 1], s.order[..k - 1];
      assert s.order[..k][..k - 1] == list;
      TakeReached(participants, t, s, k - 1);
      TakeMerges(t.dag, s, k - 1);
      Networks.KeptAll(t.dag, s.events, mine, list);
      var t' := TakeStates(t, s.events, mine, list);
      if IsNewer(s.events[h], mine) {
        TakeStep(t.dag, s, k - 1, t'.dag);
        ReachedNext(participants, t', Inserting(h, s.events[h]), InsertedState(t', h, s.events[h]));
      }
    }
  }

  // ---------------------------------------------------------------- what every turn keeps

  /** The graphs are safe, and every node is in a state of a run of its own. */
  ghost predicate Sane(w: System) {
    Networks.Safe(Graphs(w)) && forall n :: n in w.states ==> Reached(w.states.Keys, w.states[n])
  }

  lemma {:induction false} DeliverReached(w: System, a: Networks.Answer, w': System)
    requires Sane(w) && Turns(w, Gossiping(Networks.Deliver(a)), w')
    ensures a.to in w.states && a.to in w'.states && w'.states == w.states[a.to := w'.states[a.to]]
    ensures Reached(w.states.Keys, w'.states[a.to])
  {
    hide Reached, Networks.PartOf, Networks.Consistent, Take, Networks.Kept, TakeStates, KnownEvents, EventDiff;
    hide Networks.Safe;
    var s := w.states[a.to];
    DeliveryFits(Graphs(w), a);
    TakeReached(w.states.Keys, s, a.sent, |a.sent.order|);
    assert a.sent.order[..|a.sent.order|] == a.sent.order;
    TakeStatesNewer(s, a.sent.events, a.known, KnownEvents(s.dag), a.sent.order);
    DiffIsNewer(a.sent, a.known);
  }

  lemma {:induction false} DiffIsNewer(s: Dag, known: map<Creator, int>)
    requires AllStored(s, s.order)
    ensures EventDiff(s, known) == Newer(s.events, known, s.order)
  {
  }

  lemma {:induction false} DeliveryFits(w: Networks.Network, a: Networks.Answer)
    requires Networks.Safe(w) && a in w.answers && a.to in w.nodes
    ensures Compatible(w.nodes[a.to], a.sent) && AllStored(a.sent, a.sent.order)
    ensures w.nodes[a.to].logs.Keys <= w.nodes[a.to].roots.Keys && Covered(a.known, KnownEvents(w.nodes[a.to]))
  {
    hide WellFormed, Networks.Consistent, KnownEvents;
    assert Networks.PartOf(a.sent, w.nodes) && Networks.Stale(a.known, w.nodes[a.to]);
    hide Networks.PartOf;
    Networks.OwnRoot(w.nodes, a.to);
    Networks.PartsCompatible(w.nodes, w.nodes[a.to], a.sent);
    Networks.BasedIsUsable(w.nodes[a.to]);
    OrderOfPart(w, a.sent);
  }

  lemma {:induction false} OrderOfPart(w: Networks.Network, d: Dag)
    requires Networks.PartOf(d, w.nodes)
    ensures AllStored(d, d.order)
  {
    hide WellFormed;
    Networks.BasedIsUsable(d);
  }

  lemma {:induction false} PassesKeepGraph(s: State, s1: State, s2: State, s3: State, s': State)
    requires Sound(s) && Passes(s, s1, s2, s3, s')
    ensures s'.dag == s.dag
  {
    hide Sound, FameStep, Commits, DivideList, ReceiveList;
    PassesSound(s, s1, s2, s3, s');
    DivideListCommits(s, s.undetermined);
    FameCommits(s1, s2);
    ReceiveCommits(s2);
    CommitsKeepGraph(s3, s');
  }

  lemma {:induction false} ReachedSound(participants: set<Creator>, s: State)
    requires Reached(participants, s)
    ensures Sound(s)
  {
    hide IsRun, Sound;
    var run, steps :| IsRun(participants, run, steps) && |run| > 0 && run[|run| - 1] == s;
    RunSound(participants, run, steps, |run| - 1);
  }

  lemma {:induction false} GossipReached(w: System, step: Networks.Step, w': System)
    requires Sane(w) && Turns(w, Gossiping(step), w')
    ensures w'.states.Keys == w.states.Keys && forall n :: n in w'.states ==> Reached(w.states.Keys, w'.states[n])
  {
    hide Networks.Safe, Reached, TakeStates, KnownEvents, EventDiff, Networks.Kept, Insert, Fresh;
    match step
    case Create(n, h, e) =>
      ReachedNext(w.states.Keys, w.states[n], Inserting(h, e), w'.states[n]);
      assert w'.states.Keys == w.states.Keys;
    case Ask(n) =>
    case Reply(m, q) =>
    case Deliver(a) =>
      DeliverReached(w, a, w');
      assert w'.states.Keys == w.states.Keys;
  }

  lemma {:induction false} DecideSane(w: System, n: Creator, s1: State, s2: State, s3: State, w': System)
    requires Sane(w) && Turns(w, Deciding(n, s1, s2, s3), w')
    ensures Sane(w')
  {
    hide Networks.Safe, Passes, Reached;
    var s, s' := w.states[n], w'.states[n];
    ReachedSound(w.states.Keys, s);
    PassesKeepGraph(s, s1, s2, s3, s');
    ReachedNext(w.states.Keys, s, Running(s1, s2, s3), s');
    assert w'.states.Keys == w.states.Keys;
    hide Sound;
    assert Graphs(w') == Graphs(w) by { SameGraphs(w, n, s'); }
  }

  lemma {:induction false} SameGraphs(w: System, n: Creator, s: State)
    requires n in w.states && s.dag == w.states[n].dag
    ensures Graphs(w.(states := w.states[n := s])) == Graphs(w)
  {
    var w' := w.(states := w.states[n := s]);
    assert Graphs(w').nodes == Graphs(w).nodes;
  }

  lemma {:induction false} TurnSane(w: System, turn: Turn, w': System)
    requires Sane(w) && Turns(w, turn, w')
    ensures Sane(w')
  {
    hide Networks.Safe, Networks.Moves, Reached, Passes, Graphs, Follows;
    match turn
    case Gossiping(step) =>
      GossipReached(w, step, w');
      Networks.StepSafe(Graphs(w), step, Graphs(w'));
    case Deciding(n, s1, s2, s3) =>
      DecideSane(w, n, s1, s2, s3, w');
  }

  // ---------------------------------------------------------------- runs

  function Start(sizes: map<Creator, nat>): System {
    System(map c | c in sizes :: Initial(sizes.Keys, sizes[c]), {}, {})
  }

  ghost predicate IsHistory(sizes: map<Creator, nat>, history: seq<System>, turns: seq<Turn>) {
    && |history| == |turns| + 1 && history[0] == Start(sizes)
    && forall i :: 0 <= i < |turns| ==> Turns(history[i], turns[i], history[i + 1])
  }

  lemma {:induction false} StartSane(sizes: map<Creator, nat>)
    ensures Sane(Start(sizes))
  {
    hide Networks.Safe, Reached, Initial;
    assert Start(sizes).states.Keys == sizes.Keys;
    forall c | c in sizes ensures Reached(sizes.Keys, Initial(sizes.Keys, sizes[c])) {
      ReachedFirst(sizes.Keys, sizes[c]);
    }
    assert Graphs(Start(sizes)).nodes == Networks.Empty(sizes).nodes;
    Networks.EmptySafe(sizes);
  }

  /** In every reachable state of the network the graphs are safe and every node is in a state of a run. */
  lemma {:induction false} HistorySane(sizes: map<Creator, nat>, history: seq<System>, turns: seq<Turn>, i: nat)
    requires IsHistory(sizes, history, turns) && i < |history|
    ensures Sane(history[i])
  {
    hide Sane, Turns, Start;
    if i == 0 {
      StartSane(sizes);
    } else {
      HistorySane(sizes, history, turns, i - 1);
      TurnSane(history[i - 1], turns[i - 1], history[i]);
    }
  }

  lemma {:induction false} ReachedAgree(participants: set<Creator>, a: State, b: State, d: Dag)
    requires Reached(participants, a) && Reached(participants, b)
    requires SubDag(a.dag, d) && SubDag(b.dag, d) && Converges(d) && KeysTellApart(d)
    requires LastCommitted(a) <= LastCommitted(b)
    ensures Behind(a, b) <==> NothingBetween(a, b)
  {
    hide IsRun, SubDag, OneWitnessPerCreator, StrongQuorums, Based, KeysTellApart, Behind, NothingBetween;
    hide LastCommitted;
    var run, steps :| IsRun(participants, run, steps) && |run| > 0 && run[|run| - 1] == a;
    var run', steps' :| IsRun(participants, run', steps') && |run'| > 0 && run'[|run'| - 1] == b;
    RunsAgreeIff(participants, run, steps, |run| - 1, run', steps', |run'| - 1, d);
  }

  /** In every reachable state of the network, of any two nodes the one that is behind has committed a
      prefix of what the other has, in the same frames, if and only if neither holds back an event of
      the frames both have built; provided votes converge on what the two hold between them. */
  lemma {:induction false} NodesCommitAlike(sizes: map<Creator, nat>, history: seq<System>, turns: seq<Turn>, i: nat,
                                            m: Creator, n: Creator)
    requires IsHistory(sizes, history, turns) && i < |history| && m in history[i].states && n in history[i].states
    ensures Networks.Safe(Graphs(history[i]))
    ensures var a, b, d := history[i].states[m], history[i].states[n], Networks.Joint(Graphs(history[i]), m, n);
            Converges(d) && KeysTellApart(d) && LastCommitted(a) <= LastCommitted(b) ==>
              (Behind(a, b) <==> NothingBetween(a, b))
  {
    hide IsHistory, Networks.Safe, Networks.Joint, Reached, SubDag, Converges, KeysTellApart, Behind, NothingBetween;
    hide LastCommitted;
    HistorySane(sizes, history, turns, i);
    var w := history[i];
    var a, b, d := w.states[m], w.states[n], Networks.Joint(Graphs(w), m, n);
    if Converges(d) && KeysTellApart(d) && LastCommitted(a) <= LastCommitted(b) {
      ReachedAgree(w.states.Keys, a, b, d);
    }
  }
}
