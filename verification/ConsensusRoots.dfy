/** The roots of stored frames: in every run they are those that go with the frame's
    events after everything committed before it. */
module ConsensusRoots {
  import opened Dags
  import opened Frames
  import opened Consensus
  import opened ConsensusInsert
  import opened ConsensusCommit
  import opened ConsensusPasses
  import opened CommitOrder

  ghost predicate RootedAt(s: State, r: int) {
    && Based(s.dag) && 0 <= r && (forall k :: 0 <= k <= r ==> k in s.frames)
    && AllStored(s.dag, FrameEvents(s.frames, r)) && AllStored(s.dag, s.frames[r].events)
    && s.frames[r].roots == RootsAfter(s.dag, FrameEvents(s.frames, r), s.frames[r].events)
  }

  /** Every stored frame has the roots that go with it. */
  ghost predicate Rooted(s: State) {
    forall r :: r in s.frames ==> RootedAt(s, r)
  }

  lemma {:induction false} RootedKept(s: State, s': State)
    requires Rooted(s) && s'.dag == s.dag && s'.frames == s.frames
    ensures Rooted(s')
  {
    hide Based, RootsAfter, FrameEvents;
    forall r | r in s'.frames ensures RootedAt(s', r) {
      assert RootedAt(s, r);
    }
  }

  lemma {:induction false} StoredGrows(d: Dag, d': Dag, list: seq<Hash>)
    requires Grown(d, d') && AllStored(d, list)
    ensures AllStored(d', list) && Agree(d, d')
  {
    hide Based;
  }

  lemma {:induction false} RootedGrows(s: State, s': State)
    requires Rooted(s) && Grown(s.dag, s'.dag) && s'.frames == s.frames
    ensures Rooted(s')
  {
    hide WellFormed, RootsAfter, FrameEvents, Agree;
    forall r | r in s'.frames ensures RootedAt(s', r) {
      assert RootedAt(s, r);
      StoredGrows(s.dag, s'.dag, FrameEvents(s.frames, r));
      StoredGrows(s.dag, s'.dag, s.frames[r].events);
      RootsAgree(s.dag, s'.dag, FrameEvents(s.frames, r), s.frames[r].events);
    }
  }

  lemma {:induction false} RootedCommit(s: State, f: Frame)
    requires Sound(s) && Rooted(s) && s.pending != [] && FrameOf(s, s.pending[0].index, f) && AllStored(s.dag, f.events)
    ensures Rooted(CommitOne(s, f))
  {
    hide Sound, Rooted, RootedAt, FrameOf, CommitOne;
    var s' := CommitOne(s, f);
    forall r | r in s'.frames ensures RootedAt(s', r) {
      if r == f.round {
        NewRooted(s, f);
      } else {
        OldRooted(s, f, r);
      }
    }
    RootedFrom(s');
  }

  lemma {:induction false} RootedFrom(s: State)
    requires forall r :: r in s.frames ==> RootedAt(s, r)
    ensures Rooted(s)
  {
    hide RootedAt;
  }

  lemma {:induction false} FrameParts(s: State)
    requires Sound(s)
    ensures Based(s.dag) && AllStored(s.dag, s.consensus) && -1 <= LastCommitted(s)
    ensures forall r :: r in s.frames <==> 0 <= r <= LastCommitted(s)
    ensures s.consensus == FrameEvents(s.frames, LastCommitted(s) + 1)
    ensures s.pending != [] ==> s.pending[0].index == LastCommitted(s) + 1
  {
    hide WellFormed, Table, Divided, Ledger, Remaining, FrameSound, FrameEvents;
  }

  lemma {:induction false} NewRooted(s: State, f: Frame)
    requires Sound(s) && s.pending != [] && FrameOf(s, s.pending[0].index, f) && AllStored(s.dag, f.events)
    ensures RootedAt(CommitOne(s, f), f.round)
  {
    hide Sound, WellFormed, RootsAfter, FrameLists, Payload, LoadedCount, HashOfFrame;
    FrameParts(s);
    FrameEventsSame(s.frames, CommitOne(s, f).frames, f.round);
  }

  lemma {:induction false} OldRooted(s: State, f: Frame, r: int)
    requires Sound(s) && Rooted(s) && s.pending != [] && FrameOf(s, s.pending[0].index, f) && AllStored(s.dag, f.events)
    requires r in CommitOne(s, f).frames && r != f.round
    ensures RootedAt(CommitOne(s, f), r)
  {
    hide Sound, WellFormed, RootsAfter, FrameLists, Payload, LoadedCount, HashOfFrame;
    FrameParts(s);
    assert RootedAt(s, r);
    FrameEventsSame(s.frames, CommitOne(s, f).frames, r);
  }

  lemma {:induction false} CommitsRooted(s: State, s': State)
    requires Sound(s) && Rooted(s) && Commits(s, s')
    ensures Rooted(s')
    decreases |s.pending|
  {
    hide Sound, FrameOf, Rooted;
    if s.pending != [] && s.pending[0].decided {
      var f: Frame :| AllStored(s.dag, f.events) && FrameOf(s, s.pending[0].index, f) && Commits(CommitOne(s, f), s');
      CommitSound(s, f);
      RootedCommit(s, f);
      CommitsRooted(CommitOne(s, f), s');
    }
  }

  lemma {:induction false} PassesRooted(s: State, s1: State, s2: State, s3: State, s': State)
    requires Sound(s) && Rooted(s) && Passes(s, s1, s2, s3, s')
    ensures Rooted(s')
  {
    hide Sound, Rooted, WellFormed, Commits, DivideList, ReceiveList;
    PassesSound(s, s1, s2, s3, s');
    DivideListCommits(s, s.undetermined);
    FameCommits(s1, s2);
    ReceiveCommits(s2);
    RootedKept(s, s3);
    CommitsRooted(s3, s');
  }

  /** In every state of every run the stored frames have the roots that go with them. */
  lemma {:induction false} RunRooted(participants: set<Creator>, run: seq<State>, steps: seq<Step>, n: nat)
    requires IsRun(participants, run, steps) && n < |run|
    ensures Rooted(run[n])
  {
    hide Sound, Moves, Rooted;
    if n == 0 {
      InitialRooted(participants, run[0].dag.cacheSize);
    } else {
      RunRooted(participants, run, steps, n - 1);
      RunSound(participants, run, steps, n - 1);
      MoveRooted(run[n - 1], steps[n - 1], run[n]);
    }
  }

  lemma {:induction false} InitialRooted(participants: set<Creator>, cacheSize: nat)
    ensures Rooted(Initial(participants, cacheSize))
  {
  }

  lemma {:induction false} MoveRooted(s: State, step: Step, s': State)
    requires Sound(s) && Rooted(s) && Moves(s, step, s')
    ensures Rooted(s')
  {
    hide Rooted, Passes, WellFormed, Table, Divided, Queue, Committed, Ledger, Remaining, Grown;
    match step
    case Inserting(h, e) =>
      InsertGrows(s.dag, h, e);
      RootedGrows(s, s');
    case Running(s1, s2, s3) => PassesRooted(s, s1, s2, s3, s');
  }
}
