/** What happens when a round that is already committed does gain a witness. */
module LateWitnesses {
  import opened Dags
  import opened Consensus
  import opened ConsensusDecide
  import opened ConsensusCommit
  import opened ConsensusPasses
  import opened ConsensusRuns
  import opened CommitOrder

  /** A witness of the committed round `r` is not decided. */
  ghost predicate Reopened(s: State, r: int) {
    r in s.rounds && r <= LastCommitted(s) && !s.rounds[r].WitnessesDecided()
  }

  /** `x` is of a round before `r` and not received in `r` or later. */
  ghost predicate Passed(s: State, x: Hash, r: int) {
    x in s.round && s.round[x] < r && (x in s.received ==> s.received[x] < r)
  }

  lemma {:induction false} DivideLate(s: State, s': State, r: int, x: Hash)
    requires DividedMore(s, s') && Reopened(s, r) && Passed(s, x, r)
    ensures Reopened(s', r) && Passed(s', x, r)
  {
    var w :| w in s.rounds[r].events && s.rounds[r].events[w].isWitness && s.rounds[r].events[w].famous == Undefined;
    assert w in s'.rounds[r].events;
  }

  /** The votes about rounds that have left the queue are not counted any more. */
  lemma {:induction false} FameLate(s: State, s': State, r: int, x: Hash)
    requires Based(s.dag) && FameStep(s, s') && Reopened(s, r) && Passed(s, x, r)
    ensures Reopened(s', r) && Passed(s', x, r)
  {
    hide WellFormed, RowRefamed, RowJustified, RowComplete, RoundInfo.WitnessesDecided;
  }

  /** The search for a round to receive an event in does not get past the open round. */
  lemma {:induction false} ReceiveLate(s: State, s': State, r: int, x: Hash)
    requires WellFormed(s.dag) && ReceivedMore(s, s') && Reopened(s, r) && Passed(s, x, r)
    ensures Reopened(s', r) && Passed(s', x, r)
  {
    hide WellFormed, AllSee, RoundInfo.WitnessesDecided, RoundInfo.FamousWitnesses;
    if x in s'.received && x !in s.received {
      assert ReceivedAt(s, x, s'.received[x]) && !Decided(s, r);
    }
  }

  lemma {:induction false} CommitLate(s: State, s': State, r: int, x: Hash)
    requires Sound(s) && Commits(s, s') && Reopened(s, r) && Passed(s, x, r)
    ensures Reopened(s', r) && Passed(s', x, r)
    decreases |s.pending|
  {
    hide WellFormed, Table, Divided, Committed, Ledger, Remaining, FrameLists, Payload, LoadedCount;
    hide RoundInfo.WitnessesDecided;
    if s.pending != [] && s.pending[0].decided {
      var f: Frame :| AllStored(s.dag, f.events) && FrameOf(s, s.pending[0].index, f) && Commits(CommitOne(s, f), s');
      CommitSound(s, f);
      CommitLate(CommitOne(s, f), s', r, x);
    }
  }

  lemma {:induction false} MoveLate(s: State, step: Step, s': State, r: int, x: Hash)
    requires Sound(s) && Moves(s, step, s') && Reopened(s, r) && Passed(s, x, r)
    ensures Reopened(s', r) && Passed(s', x, r)
  {
    hide Sound, WellFormed, FameStep, Commits, DivideList, ReceiveList, DividedMore, ReceivedMore, Covers;
    match step
    case Inserting(h, e) =>
    case Running(s1, s2, s3) =>
      hide Reopened, Passed;
      PassesSound(s, s1, s2, s3, s');
      UndeterminedCovers(s);
      DivideListMore(s, s.undetermined);
      DivideLate(s, s1, r, x);
      FameLate(s1, s2, r, x);
      ReceiveListMore(s2, s2.undetermined);
      ReceiveLate(s2, s3, r, x);
      CommitLate(s3, s', r, x);
  }

  lemma {:induction false} RunLate(participants: set<Creator>, run: seq<State>, steps: seq<Step>, m: nat, n: nat,
                                   r: int, x: Hash)
    requires IsRun(participants, run, steps) && m <= n < |run| && Reopened(run[m], r) && Passed(run[m], x, r)
    ensures Reopened(run[n], r) && Passed(run[n], x, r)
    decreases n
  {
    hide Moves, Initial, Sound, Reopened, Passed;
    if m < n {
      RunLate(participants, run, steps, m, n - 1, r, x);
      RunSound(participants, run, steps, n - 1);
      MoveLate(run[n - 1], steps[n - 1], run[n], r, x);
    }
  }

  /** The events of a frame are received. */
  lemma {:induction false} FramedReceived(s: State, r: int, x: Hash)
    requires Sound(s) && r in s.frames && x in s.frames[r].events
    ensures x in s.received
  {
    hide WellFormed, Table, Divided, Queue, Ledger, Remaining, FrameEvents;
    assert FrameSound(s, r);
  }

  lemma {:induction false} FramesSoFar(s: State)
    requires Sound(s)
    ensures forall r :: r in s.frames <==> 0 <= r <= LastCommitted(s)
  {
    hide WellFormed, Table, Divided, Queue, Ledger, Remaining, FrameSound, FrameEvents;
  }

  /** Once a committed round has an undecided witness it has one for ever, and no event of an
      earlier round that was not received by then is ever committed. */
  lemma {:induction false} LateWitnessBlocks(participants: set<Creator>, run: seq<State>, steps: seq<Step>, m: nat,
                                             n: nat, r: int, x: Hash)
    requires IsRun(participants, run, steps) && m <= n < |run|
    requires Reopened(run[m], r) && x in run[m].round && run[m].round[x] < r && x !in run[m].received
    ensures Reopened(run[n], r) && x !in run[n].consensus
  {
    hide IsRun, Sound, Reopened;
    RunLate(participants, run, steps, m, n, r, x);
    RunSound(participants, run, steps, m);
    RunSound(participants, run, steps, n);
    if x in run[n].consensus {
      LateInFrame(participants, run, steps, m, n, r, x);
    }
  }

  lemma {:induction false} LateInFrame(participants: set<Creator>, run: seq<State>, steps: seq<Step>, m: nat, n: nat,
                                       r: int, x: Hash)
    requires IsRun(participants, run, steps) && m <= n < |run| && Sound(run[m]) && Sound(run[n])
    requires Reopened(run[m], r) && Passed(run[n], x, r) && x in run[n].consensus
    ensures x in run[m].received
  {
    hide IsRun, WellFormed, Table, Divided, Queue, Ledger, Remaining, Committed, RoundInfo.WitnessesDecided;
    CommitOrder.CommittedReceived(run[n], x);
    RunAppends(participants, run, steps, m, n);
    FramesSoFar(run[m]);
    FramesSoFar(run[n]);
    hide Sound;
    FramedReceived(run[m], run[n].received[x], x);
  }
}
