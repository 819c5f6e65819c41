/** Four participants, the last of which is slow: by the time its first two events arrive, the others
    have committed rounds 0 and 1. Its second event is a witness of round 1. */
module LateExample {
  import opened Dags
  import opened Quorum
  import opened Rounds
  import opened Fame
  import opened Consensus
  import opened ConsensusInsert
  import opened ConsensusDivide
  import opened ConsensusDecide
  import opened ConsensusCommit
  import opened ConsensusPasses
  import opened ConsensusRuns
  import opened CommitOrder
  import opened LateWitnesses
  import opened Causality
  import opened Caches
  import opened FrameBuild
  import opened Posets

  // ---------------------------------------------------------------- the events

  /** Participants 0, 1 and 2 take turns; 13 and 14 are the events of participant 3. */
  const SLOW: nat := 13
  const LATE: nat := 14
  const ALL: nat := 15

  function Name(k: nat): Hash { Digest([k]) }

  function Maker(k: nat): nat
    requires k < ALL
  {
    if k < 3 then k else if k < SLOW then (k - 2) % 3 else 3
  }

  /** The number of the self-parent. */
  function Before(k: nat): Option<nat>
    requires k < ALL
  {
    if k < 3 || k == SLOW then None
    else if k < 6 then Some(Maker(k))
    else if k < SLOW then Some(k - 3)
    else Some(SLOW)
  }

  /** The number of the other-parent: as a rule, the event just before. */
  function Heard(k: nat): Option<nat>
    requires k < ALL
  {
    if k < 3 || k == SLOW then None
    else if k == 3 then Some(0)
    else if k < SLOW then Some(k - 1)
    else Some(4)
  }

  /** Every fourth event lists three witnesses of the round it closes. */
  function Listed(k: nat): set<Hash> {
    if k in {4, 8, 12} then {Name(k - 4), Name(k - 3), Name(k - 2)} else {}
  }

  function Index(k: nat): nat {
    if k < SLOW then k / 3 else k - SLOW
  }

  function Made(k: nat): Event
    requires k < ALL
  {
    Event(Maker(k), Index(k),
          if Before(k).Some? then Name(Before(k).value) else RootHash(Maker(k)),
          if Heard(k).Some? then Name(Heard(k).value) else NoHash,
          [], false, [], [], Signature(k, true), Listed(k), [])
  }

  /** The round it gets. */
  function RoundFor(k: nat): nat {
    if k < SLOW then k / 4 else k - SLOW
  }

  predicate IsFirst(k: nat) { k % 4 != 3 || k >= SLOW }

  // ---------------------------------------------------------------- what any graph says of them

  /** `d` holds the first `n` events, and has four participants. */
  ghost predicate Tells(d: Dag, n: nat) {
    && n <= ALL && Based(d) && |d.roots| == 4
    && forall k: nat :: k < n ==> Name(k) in d.events && d.events[Name(k)] == Made(k)
  }

  lemma {:induction false} QuotaOfFour(d: Dag, n: nat)
    requires Tells(d, n)
    ensures Quota(d) == 3
  {
    hide Based;
  }

  lemma {:induction false} Link(d: Dag, n: nat, k: nat)
    requires Tells(d, n) && k < n
    ensures Name(k) in d.events && d.events[Name(k)] == Made(k)
    ensures Before(k).Some? ==> Before(k).value < n && Name(Before(k).value) in d.events
    ensures Heard(k).Some? ==> Heard(k).value < n && Name(Heard(k).value) in d.events
    ensures WellFormed(d)
  {
    hide WellFormed;
    if Before(k).Some? { assert Before(k).value < k; assert Name(Before(k).value) in d.events; }
    if Heard(k).Some? { assert Heard(k).value < k; assert Name(Heard(k).value) in d.events; }
  }

  /** From the fifth event on, each of the three sees everything before it. */
  lemma {:induction false} SeesAll(d: Dag, n: nat, k: nat, j: nat)
    requires Tells(d, n) && k < n && k < SLOW && j <= k && (4 <= k || j == k)
    ensures Name(k) in d.events && Name(j) in d.events && WellFormed(d) && Reach(d, Name(k), Name(j))
    decreases k
  {
    hide WellFormed, Tells;
    Link(d, n, k);
    Link(d, n, j);
    if j < k {
      if 4 < k {
        SeesAll(d, n, k - 1, j);
        Through(d, n, k, k - 1, j);
      } else {
        SeesFirst(d, n, j);
      }
    }
  }

  lemma {:induction false} Through(d: Dag, n: nat, k: nat, p: nat, j: nat)
    requires Tells(d, n) && k < n && (Before(k) == Some(p) || Heard(k) == Some(p))
    requires WellFormed(d) && Reach(d, Name(p), Name(j))
    ensures Reach(d, Name(k), Name(j))
  {
    hide WellFormed, Based;
    Link(d, n, k);
  }

  lemma {:induction false} SeesFirst(d: Dag, n: nat, j: nat)
    requires Tells(d, n) && 4 < n && j < 4 && WellFormed(d)
    ensures Reach(d, Name(4), Name(j))
  {
    hide WellFormed, Tells;
    if j == 2 {
      Through(d, n, 4, 2, 2);
    } else {
      if j < 2 {
        Through(d, n, 3, j, j);
      }
      Through(d, n, 4, 3, j);
    }
  }

  lemma {:induction false} Older(d: Dag, n: nat, k: nat, j: nat)
    requires Tells(d, n) && k < n && k < SLOW && j < k && 4 <= k
    ensures Name(k) in d.events && Name(j) in d.events && Rank(d, Name(j)) < Rank(d, Name(k))
  {
    hide Tells, WellFormed, Reach;
    SeesAll(d, n, k, j);
    assert Name(j) != Name(k) by { NamesDiffer(j, k); }
    ReachRank(d, Name(k), Name(j));
  }

  lemma {:induction false} NamesDiffer(j: nat, k: nat)
    requires j != k
    ensures Name(j) != Name(k)
  {
    assert [j][0] != [k][0];
  }

  // ---------------------------------------------------------------- rounds

  ghost predicate RoundRight(d: Dag, k: nat)
    requires Based(d) && Name(k) in d.events
  {
    Round(d, Name(k)) == RoundFor(k) && (Witness(d, Name(k)) <==> IsFirst(k))
  }

  lemma {:induction false} ListedSeen(d: Dag, n: nat, k: nat, j: nat)
    requires Tells(d, n) && k < n && k in {4, 8, 12} && k - 4 <= j < k - 1
    requires Name(j) in d.events && RoundRight(d, j)
    ensures Name(k) in d.events && Name(j) in Seen(d, Name(k), k / 4 - 1)
  {
    hide Tells, WellFormed, Reach, Round, Witness;
    SeesAll(d, n, k, j);
    Older(d, n, k, j);
    assert j / 4 == k / 4 - 1 && j % 4 != 3;
  }

  lemma {:induction false} ThreeNames(k: nat)
    requires k in {4, 8, 12}
    ensures |Listed(k)| == 3
  {
    NamesDiffer(k - 4, k - 3);
    NamesDiffer(k - 4, k - 2);
    NamesDiffer(k - 3, k - 2);
  }

  /** The three listed witnesses raise the round. */
  lemma {:induction false} Closes(d: Dag, n: nat, k: nat)
    requires Tells(d, n) && k < n && k in {4, 8, 12}
    requires forall j: nat :: j < k ==> Name(j) in d.events && RoundRight(d, j)
    ensures Name(k) in d.events && Raised(d, Name(k), k / 4 - 1) == k / 4
  {
    hide WellFormed, Seen, RoundRight;
    Link(d, n, k);
    QuotaOfFour(d, n);
    ThreeNames(k);
    ListedSeen(d, n, k, k - 4);
    ListedSeen(d, n, k, k - 3);
    ListedSeen(d, n, k, k - 2);
    assert Listed(k) * Seen(d, Name(k), k / 4 - 1) == Listed(k);
  }

  lemma {:induction false} NothingListed(d: Dag, n: nat, k: nat, r: int)
    requires Tells(d, n) && k < n && k !in {4, 8, 12}
    ensures Name(k) in d.events && Raised(d, Name(k), r) == r && forall q :: |Listed(k) * Seen(d, Name(k), q)| == 0
  {
    hide WellFormed, Seen;
    Link(d, n, k);
    QuotaOfFour(d, n);
    forall q ensures |Listed(k) * Seen(d, Name(k), q)| == 0 {
      assert Listed(k) * Seen(d, Name(k), q) == {};
    }
  }

  lemma {:induction false} RoundUnfolds(d: Dag, n: nat, k: nat)
    requires Tells(d, n) && k < n && Before(k).Some? && Heard(k).Some?
    ensures Name(k) in d.events && Name(Before(k).value) in d.events && Name(Heard(k).value) in d.events
    ensures var sp, op := Round(d, Name(Before(k).value)), Round(d, Name(Heard(k).value));
            Round(d, Name(k)) ==
            if op <= sp then Raised(d, Name(k), sp)
            else if |Listed(k) * Seen(d, Name(k), op)| >= Quota(d) then op + 1
            else if |Listed(k) * Seen(d, Name(k), op)| > 0 then op
            else Raised(d, Name(k), op)
  {
    hide WellFormed, Seen, Raised, Quota;
    Link(d, n, k);
  }

  /** An event with both parents. */
  lemma {:induction false} RoundOnParents(d: Dag, n: nat, k: nat)
    requires Tells(d, n) && k < n && Before(k).Some? && Heard(k).Some?
    requires forall j: nat :: j < k ==> Name(j) in d.events && RoundRight(d, j)
    ensures Name(k) in d.events && RoundRight(d, k)
  {
    hide WellFormed, Seen, Raised, RoundRight, Round, Quota, Listed;
    RoundUnfolds(d, n, k);
    var p, q := Before(k).value, Heard(k).value;
    RightParts(d, p);
    RightParts(d, q);
    if k in {4, 8, 12} {
      Closes(d, n, k);
      assert RoundFor(p) == k / 4 - 1 && RoundFor(q) == k / 4 - 1;
    } else {
      NothingListed(d, n, k, Max(RoundFor(p), RoundFor(q)));
      ParentRounds(k);
    }
    RightIf(d, n, k, p);
  }

  lemma {:induction false} ParentRounds(k: nat)
    requires k < ALL && Before(k).Some? && Heard(k).Some? && k !in {4, 8, 12}
    ensures RoundFor(k) == Max(RoundFor(Before(k).value), RoundFor(Heard(k).value))
  {
  }

  lemma {:induction false} RightParts(d: Dag, k: nat)
    requires Based(d) && Name(k) in d.events && RoundRight(d, k)
    ensures Round(d, Name(k)) == RoundFor(k)
  {
    hide Based, Round, Witness;
  }

  lemma {:induction false} RightIf(d: Dag, n: nat, k: nat, p: nat)
    requires Tells(d, n) && k < n && Before(k) == Some(p) && Heard(k).Some?
    requires Name(k) in d.events && Name(p) in d.events && Round(d, Name(k)) == RoundFor(k)
    requires Round(d, Name(p)) == RoundFor(p)
    ensures RoundRight(d, k)
  {
    hide WellFormed, Round;
    Link(d, n, k);
    assert IsFirst(k) <==> RoundFor(k) > RoundFor(p);
  }

  lemma {:induction false} RoundAlone(d: Dag, n: nat, k: nat)
    requires Tells(d, n) && k < n && Before(k) == None && Heard(k) == None
    ensures Name(k) in d.events && RoundRight(d, k)
  {
    hide WellFormed, Seen, Raised;
    Link(d, n, k);
  }

  lemma {:induction false} RoundIs(d: Dag, n: nat, k: nat)
    requires Tells(d, n) && k < n
    ensures Name(k) in d.events && RoundRight(d, k)
  {
    hide WellFormed, RoundRight;
    if Before(k) == None {
      RoundAlone(d, n, k);
    } else {
      forall j: nat | j < k ensures Name(j) in d.events && RoundRight(d, j) {
        RoundIs(d, n, j);
      }
      RoundOnParents(d, n, k);
    }
  }

  // ---------------------------------------------------------------- fame

  lemma {:induction false} Between(d: Dag, n: nat, c: nat, z: nat, w: nat)
    requires Tells(d, n) && c < n && 4 <= w <= z <= c < SLOW
    ensures WellFormed(d) && Name(c) in d.events && Name(w) in d.events && Maker(z) in Sentinels(d, Name(c), Name(w))
  {
    hide Tells, WellFormed, Reach;
    Link(d, n, z);
    SeesAll(d, n, c, z);
    SeesAll(d, n, z, w);
    assert Name(z) in Hashes(d) && CreatorOf(d, Name(z)) == Maker(z);
  }

  /** Three turns in a row are a quota of participants. */
  lemma {:induction false} Counted(d: Dag, n: nat, c: nat, w: nat)
    requires Tells(d, n) && c < n && 4 <= w && w + 2 <= c < SLOW
    ensures WellFormed(d) && StronglySees(d, Name(c), Name(w))
  {
    hide WellFormed, Sentinels, Maker, Quota, Tells;
    QuotaOfFour(d, n);
    ThreeMakers(w);
    Between(d, n, c, w, w);
    Between(d, n, c, w + 1, w);
    Between(d, n, c, w + 2, w);
    SubsetSize({Maker(w), Maker(w + 1), Maker(w + 2)}, Sentinels(d, Name(c), Name(w)));
  }

  lemma {:induction false} ThreeMakers(w: nat)
    requires 3 <= w && w + 2 < SLOW
    ensures |{Maker(w), Maker(w + 1), Maker(w + 2)}| == 3
  {
    assert Maker(w) != Maker(w + 1) && Maker(w + 1) != Maker(w + 2) && Maker(w) != Maker(w + 2);
  }

  lemma {:induction false} Ballots(d: Dag, n: nat, x: nat, y: nat)
    requires Tells(d, n) && x < n && y < n && RoundFor(x) < RoundFor(y)
    ensures Ballot(d, Name(x), Name(y)) && Round(d, Name(x)) == RoundFor(x) && Round(d, Name(y)) == RoundFor(y)
  {
    hide WellFormed, Round, Witness;
    RoundIs(d, n, x);
    RoundIs(d, n, y);
  }

  lemma {:induction false} FirstVote(d: Dag, n: nat, x: nat, w: nat)
    requires Tells(d, n) && w < n && x < w < SLOW && RoundFor(w) == RoundFor(x) + 1
    ensures Ballot(d, Name(x), Name(w)) && Vote(d, Name(x), Name(w))
  {
    hide Tells, Based, Round, Reach, Yays, Nays;
    Ballots(d, n, x, w);
    SeesAll(d, n, w, x);
  }

  lemma {:induction false} OneYay(d: Dag, n: nat, c: nat, x: nat, w: nat)
    requires Tells(d, n) && c < n && c in {8, 12} && c - 8 <= x <= c - 6 && c - 4 <= w <= c - 2
    ensures Ballot(d, Name(x), Name(c)) && Round(d, Name(c)) == Round(d, Name(x)) + 2
    ensures Name(w) in Yays(d, Name(x), Name(c))
  {
    hide WellFormed, Round, Witness, StronglySees, Vote;
    Ballots(d, n, x, c);
    Counted(d, n, c, w);
    FirstVote(d, n, x, w);
    RoundIs(d, n, w);
    VoterIf(d, Name(c), Name(w));
  }

  lemma {:induction false} VoterIf(d: Dag, y: Hash, w: Hash)
    requires Based(d) && y in d.events && w in d.events && Round(d, w) == Round(d, y) - 1 && Witness(d, w)
    requires StronglySees(d, y, w)
    ensures w in Voters(d, y)
  {
    hide WellFormed, Round, Witness, StronglySees;
  }

  /** The event that opens the second round after that of `x` settles it. */
  lemma {:induction false} Settles(d: Dag, n: nat, c: nat, x: nat) returns (v: bool)
    requires Tells(d, n) && c < n && c in {8, 12} && c - 8 <= x <= c - 6
    ensures Ballot(d, Name(x), Name(c)) && Decides(d, Name(x), Name(c), v)
  {
    hide WellFormed, Round, Witness, Yays, Nays;
    OneYay(d, n, c, x, c - 4);
    OneYay(d, n, c, x, c - 3);
    OneYay(d, n, c, x, c - 2);
    ThreeNames(c);
    QuotaOfFour(d, n);
    SubsetSize(Listed(c), Yays(d, Name(x), Name(c)));
    RoundIs(d, n, c);
    v := |Yays(d, Name(x), Name(c))| >= |Nays(d, Name(x), Name(c))|;
  }

  // ---------------------------------------------------------------- insertion

  predicate Numbered(h: Hash, n: nat) {
    h.Digest? && |h.bytes| == 1 && h.bytes[0] < n
  }

  /** `d` holds the first `n` events and nothing else. */
  ghost predicate Exactly(d: Dag, n: nat) {
    Tells(d, n) && d.roots.Keys == {0, 1, 2, 3} && forall h :: h in d.events ==> Numbered(h, n)
  }

  lemma {:induction false} MadeBy(d: Dag, n: nat, h: Hash) returns (i: nat)
    requires Exactly(d, n) && h in d.events
    ensures i < n && h == Name(i) && d.events[h] == Made(i)
  {
    hide Based;
    i := h.bytes[0];
    assert h.bytes == [i];
  }

  lemma {:induction false} MakerAndIndex(i: nat, j: nat)
    requires i < ALL && j < ALL && Maker(i) == Maker(j) && Index(i) == Index(j)
    ensures i == j
  {
  }

  lemma {:induction false} Follows(k: nat, i: nat)
    requires i < k < ALL && Maker(i) == Maker(k)
    ensures Before(k).Some? && Maker(Before(k).value) == Maker(k) && Index(Before(k).value) + 1 == Index(k)
    ensures Index(i) <= Index(Before(k).value)
  {
  }

  lemma {:induction false} BeforeFits(k: nat)
    requires k < ALL
    ensures match Before(k) case Some(p) => p < k && Maker(p) == Maker(k) case None => Index(k) == 0
  {
  }

  /** The self-parent is the participant's last event, and the index the next one. */
  lemma {:induction false} OnTheLast(d: Dag, k: nat)
    requires Exactly(d, k) && k < ALL
    ensures Maker(k) in d.roots && Maker(k) in d.logs
    ensures LastEventFrom(d, Maker(k)) == Made(k).selfParent && LastIndexFrom(d, Maker(k)) + 1 == Made(k).index
  {
    hide WellFormed, LastEventFrom, LastIndexFrom, Maker, Index, Before;
    var c := Maker(k);
    MakerOf(k);
    LogsOf(d);
    LastIsLast(d, c);
    BeforeFits(k);
    var last := LastEventFrom(d, c);
    if last in d.events {
      var i := MadeBy(d, k, last);
      Follows(k, i);
      var p := Before(k).value;
      assert Name(p) in d.events && d.events[Name(p)] == Made(p);
      MakerAndIndex(i, p);
    } else {
      RootOnly(d, last);
    }
  }

  lemma {:induction false} MakerOf(k: nat)
    requires k < ALL
    ensures Maker(k) in {0, 1, 2, 3}
  {
  }

  lemma {:induction false} LogsOf(d: Dag)
    requires Based(d)
    ensures d.logs.Keys == d.roots.Keys
  {
    hide EventOk, LogOk;
  }

  lemma {:induction false} RootOnly(d: Dag, x: Hash)
    requires Based(d) && x in d.rootOf && x !in d.events
    ensures x == RootHash(d.rootOf[x]) && CreatorOf(d, x) == d.rootOf[x] && IndexOf(d, x) == -1
  {
    hide EventOk, LogOk;
    assert d.roots[d.rootOf[x]] == BaseRoot(d.rootOf[x]);
  }

  lemma {:induction false} NextFresh(d: Dag, k: nat)
    requires Exactly(d, k) && k < ALL
    ensures Fresh(d, Name(k), Made(k))
  {
    hide WellFormed, Maker, Index, Before, LastIndexFrom;
    OnTheLast(d, k);
    HeardBefore(k);
    if Name(k) in d.rootOf {
      NotARoot(d, Name(k));
    }
    forall x | x in d.events ensures d.events[x].otherParent != Name(k) {
      var i := MadeBy(d, k, x);
      HeardBefore(i);
    }
  }

  lemma {:induction false} NotARoot(d: Dag, x: Hash)
    requires Based(d) && x in d.rootOf
    ensures x.RootHash?
  {
    hide EventOk, LogOk;
    assert d.roots[d.rootOf[x]] == BaseRoot(d.rootOf[x]);
  }

  /** An other-parent comes before the event. */
  lemma {:induction false} HeardBefore(k: nat)
    requires k < ALL
    ensures Made(k).otherParent == NoHash || (Heard(k).Some? && Heard(k).value < k
              && Made(k).otherParent == Name(Heard(k).value))
    ensures forall j: nat :: j >= k ==> Made(k).otherParent != Name(j)
  {
    if Heard(k).Some? {
      forall j: nat | j >= k ensures Name(Heard(k).value) != Name(j) { NamesDiffer(Heard(k).value, j); }
    }
  }

  lemma {:induction false} NextAccepted(d: Dag, k: nat)
    requires Exactly(d, k) && k < ALL
    ensures Fresh(d, Name(k), Made(k)) && Insert(d, Name(k), Made(k)).Ok?
  {
    hide WellFormed, Logged, Fresh, LastEventFrom, LastIndexFrom, Maker, Index, Before;
    OnTheLast(d, k);
    NextFresh(d, k);
    NextLogged(d, Name(k), Made(k));
    HeardBefore(k);
  }

  lemma {:induction false} NextGoesIn(d: Dag, k: nat)
    requires Exactly(d, k) && k < ALL
    ensures Fresh(d, Name(k), Made(k)) && Insert(d, Name(k), Made(k)).Ok?
    ensures Exactly(Insert(d, Name(k), Made(k)).value, k + 1)
  {
    hide WellFormed, Fresh, Insert, Made;
    NextAccepted(d, k);
    Appended(d, Name(k), Made(k));
    InsertGrows(d, Name(k), Made(k));
    forall i: nat | i < k ensures Name(i) != Name(k) { NamesDiffer(i, k); }
  }

  // ---------------------------------------------------------------- what the passes do

  /** A new event comes into the table with its fame undefined. */
  lemma {:induction false} NewUndefined(s: State, list: seq<Hash>, h: Hash)
    requires Sound(s) && Covers(s, list) && h in list && h !in s.round && h in s.dag.events && Based(s.dag)
    ensures var t := DivideList(s, list); var r := Round(s.dag, h);
            r in t.rounds && h in t.rounds[r].events
              && t.rounds[r].events[h] == RoundEvent(false, Witness(s.dag, h), Undefined)
    decreases |list|
  {
    hide WellFormed, Round, Witness, Lamport, Table, Queue, Committed, Ledger, Remaining, Next, Divided, DividedState;
    CoversNext(s, list);
    if list[0] in s.round {
      NewUndefined(s, list[1..], h);
    } else {
      var t := DivideOne(s, list[0]);
      DivideSound(s, list[0]);
      DivideKeepsDag(s, list[0]);
      DivideFacts(s, list[0]);
      if list[0] == h {
        DivideListMore(t, list[1..]);
      } else {
        NewUndefined(t, list[1..], h);
      }
    }
  }

  lemma {:induction false} CommitOneFacts(s: State, f: Frame)
    requires Sound(s) && s.pending != [] && AllStored(s.dag, f.events) && FrameOf(s, s.pending[0].index, f)
    ensures var t := CommitOne(s, f);
            && LastCommitted(t) == LastCommitted(s) + 1 && t.pending == s.pending[1..]
            && t.rounds == s.rounds && t.round == s.round && t.received == s.received
  {
    hide WellFormed, Table, Divided, Committed, Ledger, Remaining, Payload, LoadedCount, HashOfFrame, FrameLists;
    HeadOfQueue(s);
  }

  /** Rounds are committed while the head of the queue is decided. */
  lemma {:induction false} CommitsForward(s: State, s': State)
    requires Sound(s) && Commits(s, s')
    ensures LastCommitted(s) <= LastCommitted(s') && s'.rounds == s.rounds && s'.round == s.round
    ensures s'.received == s.received
    ensures s.pending != [] && s.pending[0].decided ==> LastCommitted(s) + 1 <= LastCommitted(s')
    ensures |s.pending| > 1 && s.pending[0].decided && s.pending[1].decided ==>
              LastCommitted(s) + 2 <= LastCommitted(s')
    decreases |s.pending|
  {
    hide Sound, FrameOf, CommitOne, LastCommitted;
    if s.pending != [] && s.pending[0].decided {
      var f: Frame :| AllStored(s.dag, f.events) && FrameOf(s, s.pending[0].index, f) && Commits(CommitOne(s, f), s');
      CommitOneFacts(s, f);
      CommitSound(s, f);
      CommitsForward(CommitOne(s, f), s');
    }
  }

  /** Which of the first events are witnesses of rounds 0 and 1. */
  lemma {:induction false} FirstsOf(i: nat, r: nat)
    requires i < SLOW && r < 2 && RoundFor(i) == r && IsFirst(i)
    ensures 4 * r <= i <= 4 * r + 2
  {
  }

  /** Rounds 0 and 1 are decided by the first pass over the first events. */
  lemma {:induction false} RowSettled(s: State, s': State, r: nat)
    requires Sound(s) && Exactly(s.dag, SLOW) && s.round.Keys == s.dag.events.Keys && r < 2 && r in s.rounds
    requires FameStep(s, s') && LastCommitted(s) < r
    ensures s'.rounds[r].WitnessesDecided()
  {
    hide WellFormed, Divided, Queue, Committed, Ledger, Remaining, RowJustified, Decides, Round, Witness, Exactly;
    hide Table, EntryOk;
    var d := s.dag;
    forall x | x in s'.rounds[r].events && s'.rounds[r].events[x].isWitness
      ensures s'.rounds[r].events[x].famous != Undefined
    {
      RowIsExact(s, r);
      assert x in s.rounds[r].Witnesses();
      var v := DecidedAbout(s, r, x);
      assert Verdict(s, x, v);
    }
  }

  lemma {:induction false} DecidedAbout(s: State, r: nat, x: Hash) returns (v: bool)
    requires Based(s.dag) && Exactly(s.dag, SLOW) && s.round.Keys == s.dag.events.Keys && r < 2
    requires x in Witnesses(s.dag, r)
    ensures Verdict(s, x, v)
  {
    hide WellFormed, Decides, Round, Witness, Ballot;
    var i := MadeBy(s.dag, SLOW, x);
    RoundIs(s.dag, SLOW, i);
    FirstsOf(i, r);
    v := Settles(s.dag, SLOW, 4 * r + 8, i);
    assert Name(4 * r + 8) in s.dag.events;
  }

  /** The table of the first events has rows up to 3. */
  lemma {:induction false} RowsUpTo(s: State)
    requires Sound(s) && Exactly(s.dag, SLOW) && s.round.Keys == s.dag.events.Keys
    ensures 3 <= s.lastRound && 0 in s.rounds && 1 in s.rounds
  {
    hide WellFormed, Queue, Committed, Ledger, Remaining, Round, Witness, Lamport, EntryOk, Made;
    assert Name(12) in s.dag.events;
    RoundIs(s.dag, SLOW, 12);
    assert Name(12) in s.round && s.round[Name(12)] == 3;
  }

  /** So they are committed. */
  lemma {:induction false} FirstPasses(s: State, s1: State, s2: State, s3: State, s': State)
    requires Sound(s) && Exactly(s.dag, SLOW) && LastCommitted(s) == -1 && Passes(s, s1, s2, s3, s')
    ensures 1 <= LastCommitted(s')
  {
    hide WellFormed, Table, Divided, Committed, Ledger, Remaining, Refamed, RowComplete, DivideList, ReceiveList;
    hide Commits, Exactly, SameFame, Covers;
    hide RoundInfo.WitnessesDecided;
    PassesSound(s, s1, s2, s3, s');
    UndeterminedCovers(s);
    DivideListMore(s, s.undetermined);
    RowsUpTo(s1);
    RowSettled(s1, s2, 0);
    RowSettled(s1, s2, 1);
    FameKeepsCommitted(s1, s2);
    ReceiveListMore(s2, s2.undetermined);
    QueueIs(s1);
    CommitsForward(s3, s');
  }

  lemma {:induction false} FameKeepsCommitted(s: State, s': State)
    requires Based(s.dag) && FameStep(s, s')
    ensures LastCommitted(s') == LastCommitted(s) && s'.dag == s.dag
  {
    hide Based, RowRefamed, RowJustified, RowComplete, RoundInfo.WitnessesDecided;
  }

  lemma {:induction false} QueueIs(s: State)
    requires Sound(s)
    ensures |s.pending| == s.lastRound - LastCommitted(s)
    ensures forall k :: 0 <= k < |s.pending| ==> s.pending[k].index == LastCommitted(s) + 1 + k
  {
    hide WellFormed, Table, Divided, Committed, Ledger, Remaining;
  }

  /** After the slow participant's events have come, round 1 is open again and its first event is held back. */
  lemma {:induction false} SecondPasses(s: State, s1: State, s2: State, s3: State, s': State)
    requires Sound(s) && Exactly(s.dag, ALL) && 1 <= LastCommitted(s) && Name(SLOW) !in s.received
    requires Name(LATE) !in s.round
    requires Passes(s, s1, s2, s3, s')
    ensures Reopened(s', 1) && HeldBack(s', Name(SLOW))
  {
    hide WellFormed, Table, Divided, Queue, Committed, Ledger, Remaining, DivideList, ReceiveList, Commits, FameStep;
    hide ReceivedMore, Covers, Exactly;
    hide RoundInfo.WitnessesDecided;
    PassesSound(s, s1, s2, s3, s');
    UndeterminedCovers(s);
    DivideListMore(s, s.undetermined);
    LateRow(s, s1);
    SlowIsIn(s, s1);
    FameLate(s1, s2, 1, Name(SLOW));
    ReceiveListMore(s2, s2.undetermined);
    ReceiveNotSlow(s1, s2, s3);
    ReceiveLate(s2, s3, 1, Name(SLOW));
    CommitsForward(s3, s');
    assert Reopened(s', 1) && s'.round[Name(SLOW)] < 1;
  }

  lemma {:induction false} LateRow(s: State, s1: State)
    requires Sound(s) && Exactly(s.dag, ALL) && 1 <= LastCommitted(s) && Name(LATE) !in s.round
    requires Covers(s, s.undetermined) && AllStored(s.dag, s.undetermined) && s1 == DivideList(s, s.undetermined)
    requires DividedMore(s, s1)
    ensures Reopened(s1, 1)
  {
    hide WellFormed, Table, Divided, Queue, Committed, Ledger, Remaining, DivideList, Round, Witness, Made;
    assert Name(LATE) in s.dag.events;
    assert Name(LATE) in s.undetermined;
    RoundIs(s.dag, ALL, LATE);
    NewUndefined(s, s.undetermined, Name(LATE));
  }

  lemma {:induction false} SlowIsIn(s: State, s1: State)
    requires Sound(s1) && Exactly(s1.dag, ALL) && s1.round.Keys == s1.dag.events.Keys && s1.received == s.received
    requires Name(SLOW) !in s.received
    ensures Passed(s1, Name(SLOW), 1) && s1.round[Name(SLOW)] == 0
  {
    hide WellFormed, Table, Queue, Committed, Ledger, Remaining, Round, Witness, Lamport, Made;
    assert Name(SLOW) in s1.dag.events;
    RoundIs(s1.dag, ALL, SLOW);
  }

  lemma {:induction false} ReceiveNotSlow(s1: State, s2: State, s3: State)
    requires Based(s1.dag) && FameStep(s1, s2) && WellFormed(s2.dag) && ReceivedMore(s2, s3)
    requires Reopened(s2, 1) && Passed(s2, Name(SLOW), 1) && Name(SLOW) !in s1.received && s1.round[Name(SLOW)] == 0
    ensures Name(SLOW) !in s3.received && s3.round == s1.round
  {
    hide WellFormed, AllSee, RowRefamed, RowJustified, RowComplete, RoundInfo.WitnessesDecided;
    hide RoundInfo.FamousWitnesses;
    assert !Decided(s2, 1);
    assert Name(SLOW) in s3.received ==> ReceivedAt(s2, Name(SLOW), s3.received[Name(SLOW)]);
  }

  // ---------------------------------------------------------------- the run

  /** Inserts events `m` to `n`. */
  method Feed(p: Poset, m: nat, n: nat)
    requires p.Valid() && Exactly(p.dag, m) && m <= n <= ALL
    modifies p
    ensures p.Valid() && Exactly(p.dag, n)
    ensures p.lastConsensusRound == old(p.lastConsensusRound) && p.round == old(p.round)
    ensures p.received == old(p.received)
  {
    hide Sound, Rooting, Exactly, Fresh, Insert, Asked, AncestorsOk, StronglyOk, RoundsOk, TimestampsOk, AskedEarly;
    hide Made, Name;
    var k := m;
    while k < n
      invariant m <= k <= n && p.Valid() && Exactly(p.dag, k)
      invariant p.lastConsensusRound == old(p.lastConsensusRound) && p.round == old(p.round)
      invariant p.received == old(p.received)
    {
      NextGoesIn(p.dag, k);
      var error := p.InsertEvent(Name(k), Made(k));
      k := k + 1;
    }
  }

  /** Round 1 is committed, and has an undecided witness; the slow participant's first event is held back. */
  method RunsIntoLateWitness() returns (p: Poset)
    ensures Sound(p.Abs()) && Reopened(p.Abs(), 1) && HeldBack(p.Abs(), Name(SLOW))
  {
    hide Sound, Rooting, Exactly, Passes, Initial, Reopened, HeldBack, Name, Poset.CachesOk;
    p := new Poset({0, 1, 2, 3}, 1);
    StartIs();
    Feed(p, 0, SLOW);
    ghost var s := p.Abs();
    ghost var s1, s2, s3 := p.RunConsensus();
    FirstPasses(s, s1, s2, s3, p.Abs());
    NotThereYet(p.Abs());
    Feed(p, SLOW, ALL);
    s := p.Abs();
    s1, s2, s3 := p.RunConsensus();
    SecondPasses(s, s1, s2, s3, p.Abs());
  }

  lemma {:induction false} StartIs()
    ensures var s := Initial({0, 1, 2, 3}, 1);
            Exactly(s.dag, 0) && s.lastConsensusRound == None
  {
    InitialBased({0, 1, 2, 3}, 1);
    hide WellFormed;
    assert Initial({0, 1, 2, 3}, 1).dag.roots.Keys == {0, 1, 2, 3};
  }

  lemma {:induction false} NotThereYet(s: State)
    requires Sound(s) && Exactly(s.dag, SLOW)
    ensures Name(SLOW) !in s.received && Name(LATE) !in s.round
  {
    hide WellFormed, Queue, Committed, Ledger, Remaining, Round, Lamport, EntryOk, Made, Tells;
    assert !Numbered(Name(SLOW), SLOW) && !Numbered(Name(LATE), SLOW);
  }
}
