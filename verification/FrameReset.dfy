/** A frame is enough to restart from: its events pass every check on its roots,
    in frame order, and keep their timestamps. */
module FrameReset {
  import opened Dags
  import opened Rounds
  import opened Consensus
  import opened Caches
  import opened ConsensusDecide
  import opened ConsensusRuns
  import opened CommitOrder
  import opened Frames
  import opened ConsensusRoots

  // ---------------------------------------------------------------- the roots tell the truth

  /** What the root of `c` records of events outside the frame is what the graph says of them. */
  ghost predicate RootTrue(d: Dag, root: Root, c: Creator)
    requires Based(d)
  {
    var sp := root.selfParent;
    && Known(d, sp.hash) && sp.hash != NoHash && CreatorOf(d, sp.hash) == c == sp.creator
    && sp.index == IndexOf(d, sp.hash) && sp.lamport == Lamport(d, sp.hash) && sp.round == Round(d, sp.hash)
    && forall h :: h in root.others ==> OtherTrue(d, h, root.others[h])
  }

  /** `other` is the other-parent of `h`, as the graph has it. */
  ghost predicate OtherTrue(d: Dag, h: Hash, other: RootEvent)
    requires Based(d)
  {
    && h in d.events && other.hash == d.events[h].otherParent && other.hash in d.events
    && other.creator == d.events[other.hash].creator && other.index == d.events[other.hash].index
    && other.lamport == Lamport(d, other.hash) && other.round == Round(d, other.hash)
  }

  ghost predicate RootsTrue(d: Dag, roots: map<Creator, Root>)
    requires Based(d)
  {
    roots.Keys == d.roots.Keys && forall c :: c in roots ==> RootTrue(d, roots[c], c)
  }

  lemma {:induction false} CreatedRootTrue(d: Dag, h: Hash)
    requires Based(d) && h in d.events
    ensures RootTrue(d, CreatedRoot(d, h), d.events[h].creator)
  {
    Parents(d, h);
    NamedIsStored(d, h);
    hide WellFormed, Round, Lamport;
  }

  lemma {:induction false} BaseRootTrue(d: Dag, c: Creator)
    requires Based(d) && c in d.roots
    ensures RootTrue(d, d.roots[c], c)
  {
    assert d.roots[c] == BaseRoot(c);
    BaseRootKnown(d, c);
  }

  lemma {:induction false} PlainRootsTrue(d: Dag, lasts: map<Creator, Hash>, list: seq<Hash>)
    requires Based(d) && LastsOk(d, lasts) && AllStored(d, list)
    ensures RootsTrue(d, PlainRoots(d, lasts, list))
  {
    hide WellFormed, RootTrue, CreatedRoot;
    forall c | c in d.roots ensures RootTrue(d, PlainRoot(d, lasts, list, c), c) {
      FirstIsListed(d, list, c);
      if FirstOf(d, list, c).Some? {
        CreatedRootTrue(d, FirstOf(d, list, c).value);
      } else if c in lasts {
        CreatedRootTrue(d, lasts[c]);
      } else {
        BaseRootTrue(d, c);
      }
    }
  }

  /** Recording other-parents changes nothing else about the roots, and is never undone. */
  lemma {:induction false} WithOthersGrows(d: Dag, roots: map<Creator, Root>, list: seq<Hash>, k: nat, n: nat)
    requires Based(d) && AllStored(d, list) && k <= n <= |list|
    ensures var a, b := WithOthers(d, roots, list, k), WithOthers(d, roots, list, n);
            && a.Keys == roots.Keys && b.Keys == roots.Keys
            && forall c :: c in roots ==>
                 && b[c].selfParent == roots[c].selfParent && a[c].selfParent == roots[c].selfParent
                 && forall h :: h in a[c].others ==> h in b[c].others
    decreases n
  {
    hide WellFormed, OtherRoot;
    if n == 0 {
    } else if k < n {
      WithOthersGrows(d, roots, list, k, n - 1);
      NamedIsStored(d, list[n - 1]);
    } else {
      WithOthersGrows(d, roots, list, n - 1, n - 1);
      NamedIsStored(d, list[n - 1]);
    }
  }

  lemma {:induction false} WithOthersTrue(d: Dag, roots: map<Creator, Root>, list: seq<Hash>, k: nat)
    requires Based(d) && AllStored(d, list) && k <= |list| && RootsTrue(d, roots)
    ensures RootsTrue(d, WithOthers(d, roots, list, k))
  {
    hide WellFormed, RootTrue;
    if k > 0 {
      WithOthersTrue(d, roots, list, k - 1);
      NamedIsStored(d, list[k - 1]);
      var rs, rs' := WithOthers(d, roots, list, k - 1), WithOthers(d, roots, list, k);
      if NeedsOther(d, rs, list, k - 1) {
        var c := d.events[list[k - 1]].creator;
        RecordOtherTrue(d, rs[c], c, list[k - 1]);
      }
    }
  }

  lemma {:induction false} RecordOtherTrue(d: Dag, root: Root, c: Creator, h: Hash)
    requires Based(d) && RootTrue(d, root, c) && h in d.events && d.events[h].otherParent in d.events
    ensures RootTrue(d, root.(others := root.others[h := OtherRoot(d, h)]), c)
  {
    hide WellFormed, Lamport, Round;
  }

  lemma {:induction false} FrameRootsTrue(d: Dag, lasts: map<Creator, Hash>, list: seq<Hash>)
    requires Based(d) && LastsOk(d, lasts) && AllStored(d, list)
    ensures RootsTrue(d, FrameRoots(d, lasts, list)) && Separate(FrameRoots(d, lasts, list))
  {
    hide WellFormed, WithOthers, PlainRoots, Lamport;
    PlainRootsTrue(d, lasts, list);
    WithOthersTrue(d, PlainRoots(d, lasts, list), list, |list|);
  }

  // ---------------------------------------------------------------- what makes a frame self-contained

  /** Within its creator's events the list leaves no gap: the self-parent is the
      one just before, or nothing of that creator comes before and the self-parent is not listed at all. */
  ghost predicate OwnChain(d: Dag, list: seq<Hash>, i: nat)
    requires AllStored(d, list) && i < |list|
  {
    var e := d.events[list[i]];
    || ((forall j :: 0 <= j < i ==> d.events[list[j]].creator != e.creator) && e.selfParent !in list)
    || (exists j :: 0 <= j < i && list[j] == e.selfParent && forall k :: j < k < i ==>
         d.events[list[k]].creator != e.creator)
  }

  ghost predicate FrameClosed(d: Dag, list: seq<Hash>) {
    && AllStored(d, list)
    && (forall i, j :: 0 <= i < j < |list| ==> list[i] != list[j])
    && (forall i :: 0 <= i < |list| ==> OwnChain(d, list, i))
    && (forall i, j :: 0 <= i < |list| && 0 <= j < |list| && list[j] == d.events[list[i]].otherParent ==> j < i)
  }

  /** The last event of creator `c` among the first `k`. */
  function LastOf(d: Dag, list: seq<Hash>, k: nat, c: Creator): Option<Hash>
    requires AllStored(d, list) && k <= |list|
  {
    if k == 0 then None
    else if d.events[list[k - 1]].creator == c then Some(list[k - 1])
    else LastOf(d, list, k - 1, c)
  }

  lemma {:induction false} LastOfIs(d: Dag, list: seq<Hash>, k: nat, j: nat, c: Creator)
    requires AllStored(d, list) && j < k <= |list| && d.events[list[j]].creator == c
    requires forall i :: j < i < k ==> d.events[list[i]].creator != c
    ensures LastOf(d, list, k, c) == Some(list[j])
  {
    if j < k - 1 {
      LastOfIs(d, list, k - 1, j, c);
    }
  }

  lemma {:induction false} NoLast(d: Dag, list: seq<Hash>, k: nat, c: Creator)
    requires AllStored(d, list) && k <= |list| && forall i :: 0 <= i < k ==> d.events[list[i]].creator != c
    ensures LastOf(d, list, k, c) == None
  {
    if k > 0 {
      NoLast(d, list, k - 1, c);
    }
  }

  lemma {:induction false} FirstOfIs(d: Dag, list: seq<Hash>, i: nat, c: Creator)
    requires AllStored(d, list) && i < |list| && d.events[list[i]].creator == c
    requires forall j :: 0 <= j < i ==> d.events[list[j]].creator != c
    ensures FirstOf(d, list, c) == Some(list[i])
    decreases |list|
  {
    var n := |list| - 1;
    if i < n {
      FirstOfIs(d, list[..n], i, c);
    } else {
      FirstIsListed(d, list[..n], c);
    }
  }

  // ---------------------------------------------------------------- the checks pass

  /** The self-parent check will find what it looks for, at the right index. */
  lemma {:induction false} SelfParentExpected(d: Dag, lasts: map<Creator, Hash>, list: seq<Hash>, k: nat)
    requires Based(d) && LastsOk(d, lasts) && FrameClosed(d, list) && k < |list|
    ensures d.events[list[k]].creator in d.roots
    ensures var e, roots := d.events[list[k]], FrameRoots(d, lasts, list);
            var last := LastOf(d, list, k, e.creator);
            && e.creator in roots
            && (last.Some? ==> last.value == e.selfParent)
            && (last == None ==>
                 roots[e.creator].selfParent.hash == e.selfParent && roots[e.creator].selfParent.index == e.index - 1)
            && (last == None && e.otherParent != NoHash ==> list[k] in roots[e.creator].others)
  {
    Parents(d, list[k]);
    hide WellFormed, Lamport, Round;
    var e := d.events[list[k]];
    assert OwnChain(d, list, k);
    WithOthersGrows(d, PlainRoots(d, lasts, list), list, 0, |list|);
    if e.selfParent !in list {
      NoLast(d, list, k, e.creator);
      FirstOfIs(d, list, k, e.creator);
    } else {
      var j :| 0 <= j < k && list[j] == e.selfParent && forall i :: j < i < k ==>
        d.events[list[i]].creator != e.creator;
      LastOfIs(d, list, k, j, e.creator);
    }
  }

  lemma {:induction false} FirstSelfParentOutside(d: Dag, list: seq<Hash>, c: Creator)
    requires Based(d) && FrameClosed(d, list) && FirstOf(d, list, c).Some?
    ensures FirstOf(d, list, c).value in d.events && d.events[FirstOf(d, list, c).value].selfParent !in list
  {
    hide WellFormed;
    FirstIsListed(d, list, c);
    var i :| 0 <= i < |list| && list[i] == FirstOf(d, list, c).value;
    assert OwnChain(d, list, i);
    Parents(d, list[i]);
    forall j | 0 <= j < i ensures d.events[list[j]].creator != c {
      EarlierOfSame(d, list, i, j, c);
    }
  }

  lemma {:induction false} EarlierOfSame(d: Dag, list: seq<Hash>, i: nat, j: nat, c: Creator)
    requires FrameClosed(d, list) && j < i < |list| && FirstOf(d, list, c) == Some(list[i])
    ensures d.events[list[j]].creator != c
  {
    if exists m :: 0 <= m <= j && d.events[list[m]].creator == c {
      var m := LeastOf(d, list, j, c);
      FirstOfIs(d, list, m, c);
    }
  }

  lemma {:induction false} LeastOf(d: Dag, list: seq<Hash>, j: nat, c: Creator) returns (m: nat)
    requires AllStored(d, list) && j < |list| && exists i :: 0 <= i <= j && d.events[list[i]].creator == c
    ensures m <= j && d.events[list[m]].creator == c && forall i :: 0 <= i < m ==> d.events[list[i]].creator != c
  {
    m := 0;
    while d.events[list[m]].creator != c
      invariant m <= j && forall i :: 0 <= i < m ==> d.events[list[i]].creator != c
      decreases j - m
    {
      m := m + 1;
    }
  }

  /** No listed event is what a root stands for. */
  lemma {:induction false} RootsOutside(d: Dag, lasts: map<Creator, Hash>, list: seq<Hash>, c: Creator)
    requires Based(d) && LastsOk(d, lasts) && FrameClosed(d, list) && c in d.roots
    ensures c in FrameRoots(d, lasts, list) && FrameRoots(d, lasts, list)[c].selfParent.hash !in list
  {
    hide WellFormed, Lamport, Round, FirstOf;
    FrameRootsTrue(d, lasts, list);
    WithOthersGrows(d, PlainRoots(d, lasts, list), list, 0, |list|);
    FirstIsListed(d, list, c);
    if FirstOf(d, list, c).Some? {
      FirstSelfParentOutside(d, list, c);
    } else {
      assert RootTrue(d, FrameRoots(d, lasts, list)[c], c);
    }
  }

  /** An other-parent that will not be found among the inserted events is recorded. */
  lemma {:induction false} OtherParentExpected(d: Dag, lasts: map<Creator, Hash>, list: seq<Hash>, k: nat)
    requires Based(d) && LastsOk(d, lasts) && FrameClosed(d, list) && k < |list|
    requires d.events[list[k]].otherParent != NoHash && d.events[list[k]].otherParent !in list[..k]
    ensures var c := d.events[list[k]].creator;
            var roots := FrameRoots(d, lasts, list);
            && c in roots && list[k] in roots[c].others
            && roots[c].others[list[k]].hash == d.events[list[k]].otherParent
  {
    hide WellFormed, Lamport, Round, FirstOf, FrameRoots, LastOf;
    var e, roots := d.events[list[k]], FrameRoots(d, lasts, list);
    SelfParentExpected(d, lasts, list, k);
    FrameRootsTrue(d, lasts, list);
    if LastOf(d, list, k, e.creator).Some? {
      LastIsListed(d, list, k, e.creator);
      RootsOutside(d, lasts, list, e.creator);
      hide FrameClosed;
      LaterOtherRecorded(d, lasts, list, k);
    }
    assert RootTrue(d, roots[e.creator], e.creator);
  }

  lemma {:induction false} LaterOtherRecorded(d: Dag, lasts: map<Creator, Hash>, list: seq<Hash>, k: nat)
    requires Based(d) && LastsOk(d, lasts) && AllStored(d, list) && k < |list|
    requires d.events[list[k]].creator in FrameRoots(d, lasts, list)
    requires d.events[list[k]].otherParent != NoHash && d.events[list[k]].otherParent !in list[..k]
    requires d.events[list[k]].selfParent != FrameRoots(d, lasts, list)[d.events[list[k]].creator].selfParent.hash
    ensures list[k] in FrameRoots(d, lasts, list)[d.events[list[k]].creator].others
  {
    hide WellFormed, Lamport, Round, FirstOf, OtherRoot, PlainRoots;
    var plain := PlainRoots(d, lasts, list);
    WithOthersGrows(d, plain, list, k, |list|);
    assert NeedsOther(d, WithOthers(d, plain, list, k), list, k);
    NamedIsStored(d, list[k]);
    assert list[k] in WithOthers(d, plain, list, k + 1)[d.events[list[k]].creator].others;
    WithOthersGrows(d, plain, list, k + 1, |list|);
  }

  lemma {:induction false} LastIsListed(d: Dag, list: seq<Hash>, k: nat, c: Creator)
    requires AllStored(d, list) && k <= |list|
    ensures LastOf(d, list, k, c).Some? ==> LastOf(d, list, k, c).value in list
    ensures LastOf(d, list, k, c).Some? ==> LastOf(d, list, k, c).value in list[..k]
  {
    if k > 0 {
      LastIsListed(d, list, k - 1, c);
      assert list[..k] == list[..k - 1] + [list[k - 1]];
    }
  }

  /** The log of `c` ends with its last inserted event, or is empty. */
  ghost predicate LastStands(d: Dag, roots: map<Creator, Root>, list: seq<Hash>, k: nat, dd: Dag, c: Creator)
    requires AllStored(d, list) && k <= |list| && c in roots && c in dd.logs && dd.roots == roots
  {
    var last := LastOf(d, list, k, c);
    && LastEventFrom(dd, c) == (if last.Some? then last.value else roots[c].selfParent.hash)
    && (last == None <==> dd.logs[c] == [])
  }

  /** The restarted graph holds exactly the first `k` listed events, on the frame's roots. */
  ghost predicate Rebuilt(d: Dag, roots: map<Creator, Root>, list: seq<Hash>, k: nat, dd: Dag)
    requires AllStored(d, list) && k <= |list|
  {
    && WellFormed(dd) && dd.roots == roots
    && (forall x :: x in dd.rootOf ==> dd.rootOf[x] in roots && roots[dd.rootOf[x]].selfParent.hash == x)
    && (forall h :: h in dd.events <==> h in list[..k])
    && (forall h :: h in dd.events ==> h in d.events && dd.events[h] == d.events[h])
    && (forall c :: c in roots ==> c in dd.logs && LastStands(d, roots, list, k, dd, c))
  }

  lemma {:induction false} EmptyRebuilt(d: Dag, roots: map<Creator, Root>, list: seq<Hash>, size: nat)
    requires Based(d) && AllStored(d, list) && RootsTrue(d, roots) && Separate(roots)
    ensures Rebuilt(d, roots, list, 0, EmptyDag(roots, size))
  {
    hide Based, WellFormed, RootTrue, LogOk;
    var dd := EmptyDag(roots, size);
    forall c | c in roots ensures LogOk(dd, c) {
      EmptyLog(d, roots, c, size);
    }
    EmptyWellFormed(dd);
  }

  lemma {:induction false} EmptyLog(d: Dag, roots: map<Creator, Root>, c: Creator, size: nat)
    requires Based(d) && Separate(roots) && c in roots && RootTrue(d, roots[c], c)
    ensures LogOk(EmptyDag(roots, size), c)
  {
    hide Based, Lamport, Round;
  }

  lemma {:induction false} EmptyWellFormed(dd: Dag)
    requires dd.events == map[] && dd.topo == map[] && dd.order == [] && dd.logs.Keys == dd.roots.Keys
    requires forall c :: c in dd.roots ==> LogOk(dd, c)
    requires forall x :: x in dd.rootOf ==> dd.rootOf[x] in dd.roots && dd.roots[dd.rootOf[x]].selfParent.hash == x
    ensures WellFormed(dd)
  {
  }

  lemma {:induction false} EventVerifies(d: Dag, h: Hash)
    requires WellFormed(d) && h in d.events
    ensures Verify(d.events[h]) && h.Digest?
  {
    assert EventOk(d, h);
  }

  /** Its index continues the log. */
  lemma {:induction false} NextIndex(d: Dag, lasts: map<Creator, Hash>, list: seq<Hash>, k: nat, dd: Dag)
    requires Based(d) && LastsOk(d, lasts) && FrameClosed(d, list) && k < |list|
    requires Rebuilt(d, FrameRoots(d, lasts, list), list, k, dd)
    ensures var e := d.events[list[k]];
            e.creator in dd.roots && e.creator in dd.logs && e.index == LastIndexFrom(dd, e.creator) + 1
  {
    hide FrameRoots, LastOf, EventOk;
    var e := d.events[list[k]];
    SelfParentExpected(d, lasts, list, k);
    Parents(d, list[k]);
    assert LastStands(d, dd.roots, list, k, dd, e.creator);
    var log := dd.logs[e.creator];
    assert LogOk(dd, e.creator);
    if log != [] {
      assert log[|log| - 1] in dd.events;
    }
  }

  lemma {:induction false} NextFresh(d: Dag, lasts: map<Creator, Hash>, list: seq<Hash>, k: nat, dd: Dag)
    requires Based(d) && LastsOk(d, lasts) && FrameClosed(d, list) && k < |list|
    requires Rebuilt(d, FrameRoots(d, lasts, list), list, k, dd)
    ensures Fresh(dd, list[k], d.events[list[k]])
  {
    hide WellFormed, FrameRoots, LastOf, LastEventFrom;
    NextIndex(d, lasts, list, k, dd);
    EventVerifies(d, list[k]);
    NamedIsStored(d, list[k]);
    FrameRootsTrue(d, lasts, list);
    if list[k] in dd.rootOf {
      RootsOutside(d, lasts, list, dd.rootOf[list[k]]);
    }
    forall x | x in dd.events ensures dd.events[x].otherParent != list[k] {
      var i :| 0 <= i < k && list[i] == x;
    }
  }

  /** The next event is accepted. */
  lemma {:induction false} NextAccepted(d: Dag, lasts: map<Creator, Hash>, list: seq<Hash>, k: nat, dd: Dag)
    requires Based(d) && LastsOk(d, lasts) && FrameClosed(d, list) && k < |list|
    requires Rebuilt(d, FrameRoots(d, lasts, list), list, k, dd)
    ensures Insert(dd, list[k], d.events[list[k]]).Ok?
  {
    hide WellFormed, FrameRoots, LastEventFrom, LastOf, Logged, Fresh;
    var e := d.events[list[k]];
    NextFresh(d, lasts, list, k, dd);
    SelfParentExpected(d, lasts, list, k);
    assert LastStands(d, dd.roots, list, k, dd, e.creator);
    NextLogged(dd, list[k], e);
    EventVerifies(d, list[k]);
    if e.otherParent != NoHash && e.otherParent !in list[..k] {
      OtherParentExpected(d, lasts, list, k);
    }
  }

  lemma {:induction false} RebuildStep(d: Dag, lasts: map<Creator, Hash>, list: seq<Hash>, k: nat, dd: Dag)
    requires Based(d) && LastsOk(d, lasts) && FrameClosed(d, list) && k < |list|
    requires Rebuilt(d, FrameRoots(d, lasts, list), list, k, dd)
    ensures Insert(dd, list[k], d.events[list[k]]).Ok?
    ensures Rebuilt(d, FrameRoots(d, lasts, list), list, k + 1, Insert(dd, list[k], d.events[list[k]]).value)
  {
    hide WellFormed, FrameRoots, FrameClosed, Insert, Fresh, LastStands;
    ListedStored(d, list, k);
    NextAccepted(d, lasts, list, k, dd);
    NextFresh(d, lasts, list, k, dd);
    InsertKeeps(dd, list[k], d.events[list[k]]);
    Appended(dd, list[k], d.events[list[k]]);
    assert list[..k + 1] == list[..k] + [list[k]];
    forall c | c in dd.roots
      ensures c in Stored(dd, list[k], d.events[list[k]]).logs
      ensures LastStands(d, dd.roots, list, k + 1, Stored(dd, list[k], d.events[list[k]]), c)
    {
      LastMoves(d, list, k, dd, c);
    }
  }

  lemma {:induction false} LastMoves(d: Dag, list: seq<Hash>, k: nat, dd: Dag, c: Creator)
    requires AllStored(d, list) && k < |list| && c in dd.roots && c in dd.logs
    requires LastStands(d, dd.roots, list, k, dd, c)
    requires d.events[list[k]].creator in dd.logs
    ensures var dd' := Stored(dd, list[k], d.events[list[k]]);
              c in dd'.logs && LastStands(d, dd.roots, list, k + 1, dd', c)
  {
  }

  lemma {:induction false} ListedStored(d: Dag, list: seq<Hash>, k: nat)
    requires FrameClosed(d, list) && k < |list|
    ensures AllStored(d, list) && list[k] in d.events
  {
  }

  lemma {:induction false} RebuildAll(d: Dag, lasts: map<Creator, Hash>, list: seq<Hash>, k: nat, size: nat)
    requires Based(d) && LastsOk(d, lasts) && FrameClosed(d, list) && k <= |list|
    requires Separate(FrameRoots(d, lasts, list))
    ensures InsertFirst(EmptyDag(FrameRoots(d, lasts, list), size), d.events, list, k).Ok?
    ensures Rebuilt(d, FrameRoots(d, lasts, list), list, k,
              InsertFirst(EmptyDag(FrameRoots(d, lasts, list), size), d.events, list, k).value)
  {
    hide WellFormed, FrameRoots, EmptyDag, Rebuilt, Insert;
    if k == 0 {
      FrameRootsTrue(d, lasts, list);
      EmptyRebuilt(d, FrameRoots(d, lasts, list), list, size);
    } else {
      RebuildAll(d, lasts, list, k - 1, size);
      var roots := FrameRoots(d, lasts, list);
      RebuildStep(d, lasts, list, k - 1, InsertFirst(EmptyDag(roots, size), d.events, list, k - 1).value);
    }
  }

  // ---------------------------------------------------------------- timestamps

  /** `dd` has grown, on roots that tell the truth about `d`, from events of `d`. */
  ghost predicate Regrown(d: Dag, dd: Dag) {
    && Based(d) && WellFormed(dd) && RootsTrue(d, dd.roots)
    && forall h :: h in dd.events ==> h in d.events && dd.events[h] == d.events[h]
  }

  /** Then every hash it knows has the timestamp it had before. */
  lemma {:induction false} SameTimestamps(d: Dag, dd: Dag, x: Hash)
    requires Regrown(d, dd) && Known(dd, x)
    ensures Known(d, x) && Lamport(dd, x) == Lamport(d, x)
    decreases Rank(dd, x)
  {
    hide WellFormed;
    if x in dd.events {
      var e := dd.events[x];
      Parents(dd, x);
      Parents(d, x);
      SameTimestamps(d, dd, e.selfParent);
      if e.otherParent in dd.events {
        SameTimestamps(d, dd, e.otherParent);
      } else if e.otherParent != NoHash {
        RecordedOther(dd, x);
        assert RootTrue(d, dd.roots[e.creator], e.creator);
      }
    } else {
      RootKnown(dd, x);
      assert RootTrue(d, dd.roots[dd.rootOf[x]], dd.rootOf[x]);
    }
  }

  lemma {:induction false} RootKnown(dd: Dag, x: Hash)
    requires WellFormed(dd) && x in dd.rootOf
    ensures dd.rootOf[x] in dd.roots && dd.roots[dd.rootOf[x]].selfParent.hash == x
  {
    hide EventOk, LogOk;
  }

  /** Taking in more events of `d` leaves it so. */
  lemma {:induction false} RegrownGrows(d: Dag, dd: Dag, h: Hash)
    requires Regrown(d, dd) && h in d.events && Fresh(dd, h, d.events[h]) && Insert(dd, h, d.events[h]).Ok?
    ensures Regrown(d, Insert(dd, h, d.events[h]).value)
  {
    hide EventOk, LogOk, Fresh, RootsTrue;
    InsertKeeps(dd, h, d.events[h]);
  }

  /** So a cache that is right of the graph `d` is right of every hash known after a restart on such roots. */
  lemma {:induction false} CachesOutliveRestart(d: Dag, dd: Dag, cache: map<Hash, int>)
    requires TimestampsRight(cache, d) && Regrown(d, dd)
    ensures TimestampsRight(cache, dd)
  {
    hide WellFormed, Lamport;
    forall x | x in cache && Known(dd, x) ensures cache[x] == Lamport(dd, x) {
      SameTimestamps(d, dd, x);
    }
  }

  /** And what is learned from the restarted graph is right of `d`. */
  lemma {:induction false} LearnedIsRight(d: Dag, dd: Dag, cache: map<Hash, int>, cache': map<Hash, int>)
    requires TimestampsRight(cache, d) && Regrown(d, dd) && Learned(cache, cache', dd)
    ensures TimestampsRight(cache', d)
  {
    hide WellFormed, Lamport;
    forall x | x in cache' && Known(d, x) ensures cache'[x] == Lamport(d, x) {
      if Known(dd, x) {
        SameTimestamps(d, dd, x);
      }
    }
  }

  /** A cache that is right of one graph is right of any that agrees with it. */
  lemma {:induction false} RightElsewhere(d0: Dag, d: Dag, cache: map<Hash, int>)
    requires Based(d0) && Based(d) && Agree(d0, d) && TimestampsOk(cache, d0)
    ensures TimestampsRight(cache, d)
  {
    hide WellFormed, Lamport;
    forall x | x in cache && Known(d, x) ensures cache[x] == Lamport(d, x) {
      LamportAgree(d0, d, x);
    }
  }

  /** The graphs a node goes through, restart by restart, and its timestamp cache at the start and the end of each. */
  ghost predicate Restarts(d: Dag, graphs: seq<Dag>, caches: seq<map<Hash, int>>) {
    && |caches| == |graphs| + 1 && TimestampsRight(caches[0], d)
    && forall i :: 0 <= i < |graphs| ==> Regrown(d, graphs[i]) && Learned(caches[i], caches[i + 1], graphs[i])
  }

  /** However often a node restarts, what its timestamp cache says of the hashes it knows is right. */
  lemma {:induction false} CachesOutliveRestarts(d: Dag, graphs: seq<Dag>, caches: seq<map<Hash, int>>, i: nat)
    requires Restarts(d, graphs, caches) && i < |graphs|
    ensures TimestampsRight(caches[i], d) && TimestampsRight(caches[i + 1], d)
    ensures TimestampsRight(caches[i], graphs[i]) && TimestampsRight(caches[i + 1], graphs[i])
  {
    hide TimestampsRight, Regrown, Learned;
    if i > 0 {
      CachesOutliveRestarts(d, graphs, caches, i - 1);
    }
    LearnedIsRight(d, graphs[i], caches[i], caches[i + 1]);
    CachesOutliveRestart(d, graphs[i], caches[i]);
    CachesOutliveRestart(d, graphs[i], caches[i + 1]);
  }

  lemma {:induction false} RootTrueToo(d: Dag, d': Dag, root: Root, c: Creator)
    requires Based(d) && Based(d') && SubDag(d, d') && RootTrue(d, root, c)
    ensures RootTrue(d', root, c)
  {
    hide WellFormed, Lamport, Round;
    var sp := root.selfParent;
    SameOf(d, d', sp.hash);
    forall h | h in root.others ensures OtherTrue(d', h, root.others[h]) {
      assert OtherTrue(d, h, root.others[h]);
      SameOf(d, d', root.others[h].hash);
    }
  }

  lemma {:induction false} SameOf(d: Dag, d': Dag, x: Hash)
    requires Based(d) && Based(d') && SubDag(d, d') && Known(d, x)
    ensures Known(d', x) && CreatorOf(d', x) == CreatorOf(d, x) && IndexOf(d', x) == IndexOf(d, x)
    ensures Lamport(d', x) == Lamport(d, x) && Round(d', x) == Round(d, x)
  {
    SharedRoots(d, d');
    if x in d'.events { RootsAreNotEvents(d', d, x); }
    hide WellFormed;
    ReachGrows(d, d', x, x);
    RoundAgree(d, d', x);
  }

  /** A graph regrown from part of `d` is regrown from `d`. */
  lemma {:induction false} RegrownFromPart(d: Dag, d': Dag, dd: Dag)
    requires Regrown(d, dd) && Based(d') && SubDag(d, d')
    ensures Regrown(d', dd)
  {
    hide WellFormed, RootTrue;
    forall c | c in dd.roots ensures RootTrue(d', dd.roots[c], c) {
      RootTrueToo(d, d', dd.roots[c], c);
    }
  }

  lemma {:induction false} RecordedOther(dd: Dag, x: Hash)
    requires WellFormed(dd) && x in dd.events && dd.events[x].otherParent != NoHash
    requires dd.events[x].otherParent !in dd.events
    ensures dd.events[x].creator in dd.roots && x in dd.roots[dd.events[x].creator].others
  {
    assert EventOk(dd, x);
  }

  // ---------------------------------------------------------------- frames of causally ordered runs

  lemma {:induction false} InFrame(s: State, r: int, h: Hash)
    requires Sound(s) && Stable(s) && 0 <= r <= LastCommitted(s) && r in s.frames
    ensures h in s.frames[r].events <==> h in s.received && s.received[h] == r
    ensures h in s.frames[r].events ==> h in s.dag.events && h in s.round && h in s.lamport
  {
    hide WellFormed, Table, Divided, Queue, Ledger, Remaining, ReceivedAt, FrameEvents, Decided, FrameSound;
    if h in s.frames[r].events {
      var i :| 0 <= i < |s.frames[r].events| && s.frames[r].events[i] == h;
      FrameFacts(s, r, i);
      ReceivedIsDivided(s, h);
      RoundIsOfEvent(s, h);
      LamportKeys(s);
    }
  }

  /** Of two events of one creator in a frame, the one with the smaller index comes first. */
  lemma {:induction false} OwnOrder(s: State, r: int, i: nat, j: nat)
    requires Sound(s) && Stable(s) && 0 <= r <= LastCommitted(s) && r in s.frames
    requires i < |s.frames[r].events| && j < |s.frames[r].events| && AllStored(s.dag, s.frames[r].events)
    requires s.dag.events[s.frames[r].events[i]].creator == s.dag.events[s.frames[r].events[j]].creator
    requires s.dag.events[s.frames[r].events[i]].index < s.dag.events[s.frames[r].events[j]].index
    ensures i < j
  {
    hide WellFormed, Table, Divided, Queue, Ledger, Remaining, Stable, Committed, Reach;
    var x, y := s.frames[r].events[j], s.frames[r].events[i];
    InFrame(s, r, x);
    InFrame(s, r, y);
    SameCreatorReach(s.dag, x, y);
    AncestorDivided(s, x, y);
    FrameSortedAt(s, r, i, j);
  }

  /** A parent that is in the frame comes first. */
  lemma {:induction false} ParentFirst(s: State, r: int, i: nat, j: nat)
    requires Sound(s) && Stable(s) && 0 <= r <= LastCommitted(s) && r in s.frames
    requires i < |s.frames[r].events| && j < |s.frames[r].events| && AllStored(s.dag, s.frames[r].events)
    requires var e := s.dag.events[s.frames[r].events[i]];
             s.frames[r].events[j] == e.selfParent || (e.otherParent != NoHash
               && s.frames[r].events[j] == e.otherParent)
    ensures j < i
  {
    hide WellFormed, Table, Divided, Queue, Ledger, Remaining, Stable, Committed;
    var x, y := s.frames[r].events[i], s.frames[r].events[j];
    InFrame(s, r, x);
    InFrame(s, r, y);
    Parents(s.dag, x);
    ParentReached(s.dag, x, y);
    hide Reach;
    AncestorDivided(s, x, y);
    FrameSortedAt(s, r, j, i);
  }

  lemma {:induction false} ParentReached(d: Dag, x: Hash, y: Hash)
    requires WellFormed(d) && x in d.events
    requires y == d.events[x].selfParent || (d.events[x].otherParent != NoHash && y == d.events[x].otherParent)
    ensures Reach(d, x, y) && y != x
  {
    Parents(d, x);
    hide WellFormed;
    assert Reach(d, y, y);
  }

  /** Between two of its events in a frame, a creator has no event outside it. */
  lemma {:induction false} NothingSkipped(s: State, r: int, x: Hash, z: Hash)
    requires Sound(s) && Stable(s) && 0 <= r <= LastCommitted(s) && r in s.frames
    requires x in s.frames[r].events && z in s.frames[r].events && x in s.dag.events && z in s.dag.events
    requires s.dag.events[z].creator == s.dag.events[x].creator && s.dag.events[z].index < s.dag.events[x].index
    ensures s.dag.events[x].selfParent in s.frames[r].events
  {
    hide WellFormed, Table, Divided, Queue, Ledger, Remaining, Stable, Committed, Reach;
    var sp := s.dag.events[x].selfParent;
    InFrame(s, r, x);
    InFrame(s, r, z);
    InFrame(s, r, sp);
    Parents(s.dag, x);
    RootIndexIsBelow(s.dag, z);
    ParentReached(s.dag, x, sp);
    AncestorReceived(s, x, sp);
    SameCreatorReach(s.dag, sp, z);
    AncestorReceived(s, sp, z);
  }

  lemma {:induction false} FrameChain(s: State, r: int, i: nat)
    requires Sound(s) && Stable(s) && 0 <= r <= LastCommitted(s) && r in s.frames
    requires AllStored(s.dag, s.frames[r].events) && i < |s.frames[r].events|
    ensures OwnChain(s.dag, s.frames[r].events, i)
  {
    hide Sound, WellFormed, Stable;
    var d, list := s.dag, s.frames[r].events;
    var x := list[i];
    var e := d.events[x];
    SoundGraph(s);
    Parents(d, x);
    if e.selfParent in list {
      var j :| 0 <= j < |list| && list[j] == e.selfParent;
      ParentFirst(s, r, i, j);
      forall k | j < k < i ensures d.events[list[k]].creator != e.creator {
        if d.events[list[k]].creator == e.creator {
          NotBetween(s, r, i, j, k);
        }
      }
    } else {
      forall j | 0 <= j < i ensures d.events[list[j]].creator != e.creator {
        if d.events[list[j]].creator == e.creator {
          EarlierIsOlder(s, r, j, i);
          NothingSkipped(s, r, x, list[j]);
        }
      }
    }
  }

  lemma {:induction false} SoundGraph(s: State)
    requires Sound(s)
    ensures Based(s.dag)
  {
    hide WellFormed, Table, Divided, Queue, Ledger, Remaining, Committed;
  }

  lemma {:induction false} EarlierIsOlder(s: State, r: int, i: nat, j: nat)
    requires Sound(s) && Stable(s) && 0 <= r <= LastCommitted(s) && r in s.frames
    requires AllStored(s.dag, s.frames[r].events)
    requires i < j < |s.frames[r].events|
    requires s.dag.events[s.frames[r].events[i]].creator == s.dag.events[s.frames[r].events[j]].creator
    ensures s.dag.events[s.frames[r].events[i]].index < s.dag.events[s.frames[r].events[j]].index
  {
    var x, y := s.frames[r].events[i], s.frames[r].events[j];
    FrameDistinct(s, r, i, j);
    hide Sound, WellFormed, Stable;
    if s.dag.events[y].index < s.dag.events[x].index {
      OwnOrder(s, r, j, i);
    } else if s.dag.events[y].index == s.dag.events[x].index {
      SoundGraph(s);
      NoFork(s.dag, x, y);
    }
  }

  lemma {:induction false} NotBetween(s: State, r: int, i: nat, j: nat, k: nat)
    requires Sound(s) && Stable(s) && 0 <= r <= LastCommitted(s) && r in s.frames
    requires AllStored(s.dag, s.frames[r].events)
    requires j < k < i < |s.frames[r].events| && s.frames[r].events[j] == s.dag.events[s.frames[r].events[i]].selfParent
    ensures s.dag.events[s.frames[r].events[k]].creator != s.dag.events[s.frames[r].events[i]].creator
  {
    hide Sound, WellFormed, Stable;
    SoundGraph(s);
    Parents(s.dag, s.frames[r].events[i]);
    if s.dag.events[s.frames[r].events[k]].creator == s.dag.events[s.frames[r].events[i]].creator {
      EarlierIsOlder(s, r, j, k);
      EarlierIsOlder(s, r, k, i);
    }
  }

  /** Every committed frame of a run whose decided rounds gain no witness is closed. */
  lemma {:induction false} FrameIsClosed(s: State, r: int)
    requires Sound(s) && Stable(s) && 0 <= r <= LastCommitted(s)
    ensures r in s.frames && FrameClosed(s.dag, s.frames[r].events)
  {
    hide Sound, WellFormed, Stable, OwnChain;
    FrameExists(s, r);
    var list := s.frames[r].events;
    forall i | 0 <= i < |list| ensures OwnChain(s.dag, list, i) {
      FrameChain(s, r, i);
    }
    forall i, j | 0 <= i < |list| && 0 <= j < |list| && list[j] == s.dag.events[list[i]].otherParent ensures j < i {
      OtherFirst(s, r, i, j);
    }
  }

  lemma {:induction false} OtherFirst(s: State, r: int, i: nat, j: nat)
    requires Sound(s) && Stable(s) && 0 <= r <= LastCommitted(s) && r in s.frames
    requires AllStored(s.dag, s.frames[r].events)
    requires i < |s.frames[r].events| && j < |s.frames[r].events|
    requires s.frames[r].events[j] == s.dag.events[s.frames[r].events[i]].otherParent
    ensures j < i
  {
    hide Sound, WellFormed, Stable;
    SoundGraph(s);
    NotNoHash(s.dag, s.frames[r].events[j]);
    ParentFirst(s, r, i, j);
  }

  lemma {:induction false} NotNoHash(d: Dag, h: Hash)
    requires WellFormed(d) && h in d.events
    ensures h != NoHash
  {
  }

  lemma {:induction false} FrameExists(s: State, r: int)
    requires Sound(s) && 0 <= r <= LastCommitted(s)
    ensures r in s.frames && AllStored(s.dag, s.frames[r].events)
    ensures forall i, j :: 0 <= i < j < |s.frames[r].events| ==> s.frames[r].events[i] != s.frames[r].events[j]
  {
    hide WellFormed, Table, Divided, Queue, Ledger, Remaining, FrameEvents;
    assert FrameSound(s, r);
  }

  /** An empty node restarted from a committed frame accepts every event of it, in
      frame order, and gives each the timestamp it had: what the timestamp cache
      still holds of them stays right. */
  lemma {:induction false} FrameRestarts(s: State, r: int, lasts: map<Creator, Hash>, size: nat)
    requires Sound(s) && Stable(s) && 0 <= r <= LastCommitted(s) && LastsOk(s.dag, lasts)
    ensures Based(s.dag) && r in s.frames && AllStored(s.dag, s.frames[r].events)
    ensures var list, roots := s.frames[r].events, FrameRoots(s.dag, lasts, s.frames[r].events);
            && Separate(roots)
            && InsertFirst(EmptyDag(roots, size), s.dag.events, list, |list|).Ok?
            && var dd := InsertFirst(EmptyDag(roots, size), s.dag.events, list, |list|).value;
               && Regrown(s.dag, dd) && dd.roots == roots
               && (forall h :: h in dd.events <==> h in list)
               && (forall x :: Known(dd, x) ==> Known(s.dag, x) && Lamport(dd, x) == Lamport(s.dag, x))
  {
    hide Sound, WellFormed, Stable, FrameRoots, Lamport, FrameClosed, EmptyDag, InsertFirst, Rebuilt, Regrown;
    hide RootsTrue;
    SoundGraph(s);
    FrameExists(s, r);
    FrameIsClosed(s, r);
    var list, roots := s.frames[r].events, FrameRoots(s.dag, lasts, s.frames[r].events);
    FrameRootsTrue(s.dag, lasts, list);
    RebuildAll(s.dag, lasts, list, |list|, size);
    var dd := InsertFirst(EmptyDag(roots, size), s.dag.events, list, |list|).value;
    RebuiltParts(s.dag, roots, list, dd);
    forall x | Known(dd, x) ensures Known(s.dag, x) && Lamport(dd, x) == Lamport(s.dag, x) {
      SameTimestamps(s.dag, dd, x);
    }
  }

  lemma {:induction false} RebuiltParts(d: Dag, roots: map<Creator, Root>, list: seq<Hash>, dd: Dag)
    requires Based(d) && AllStored(d, list) && RootsTrue(d, roots) && Rebuilt(d, roots, list, |list|, dd)
    ensures Regrown(d, dd) && WellFormed(dd) && dd.roots == roots && forall h :: h in dd.events <==> h in list
  {
    hide WellFormed, LastStands, RootTrue;
    assert list[..|list|] == list;
  }

  /** The same of a frame as it is stored, with the roots it was stored with. */
  lemma {:induction false} StoredFrameRestarts(s: State, r: int, size: nat)
    requires Sound(s) && Stable(s) && Rooted(s) && 0 <= r <= LastCommitted(s)
    ensures Based(s.dag) && r in s.frames && AllStored(s.dag, s.frames[r].events) && Separate(s.frames[r].roots)
    ensures var f := s.frames[r];
            var reset := InsertFirst(EmptyDag(f.roots, size), s.dag.events, f.events, |f.events|);
            && reset.Ok? && Regrown(s.dag, reset.value)
            && reset.value.events == (map h | h in f.events :: s.dag.events[h])
            && (forall x :: Known(reset.value, x) ==> Known(s.dag, x) && Lamport(reset.value, x) == Lamport(s.dag, x))
  {
    hide Sound, Stable, WellFormed, Lamport, FrameRoots, InsertFirst, EmptyDag, LastsOk, LastsOf, Separate, FrameEvents;
    FrameExists(s, r);
    assert RootedAt(s, r);
    var f := s.frames[r];
    var lasts := LastsOf(s.dag, FrameEvents(s.frames, r));
    FrameRestarts(s, r, lasts, size);
    var dd := InsertFirst(EmptyDag(f.roots, size), s.dag.events, f.events, |f.events|).value;
    assert forall h :: h in dd.events <==> h in f.events;
  }

  /** A node that falls behind and restarts from a committed frame of another: the events go in,
      and the timestamps it still remembers are right, whatever it held before and however often it
      has restarted. `d` is all that any node holds. */
  lemma {:induction false} RestartFromPeer(s: State, r: int, d: Dag, size: nat, cache: map<Hash, int>)
    requires Sound(s) && Stable(s) && Rooted(s) && 0 <= r <= LastCommitted(s)
    requires Based(d) && SubDag(s.dag, d) && TimestampsRight(cache, d)
    ensures r in s.frames && AllStored(s.dag, s.frames[r].events) && Separate(s.frames[r].roots)
    ensures var f := s.frames[r];
            var reset := InsertFirst(EmptyDag(f.roots, size), s.dag.events, f.events, |f.events|);
            reset.Ok? && Regrown(d, reset.value) && TimestampsRight(cache, reset.value)
  {
    hide Sound, Stable, Rooted, Based, TimestampsRight, InsertFirst, EmptyDag, Separate, Regrown, SubDag;
    StoredFrameRestarts(s, r, size);
    var f := s.frames[r];
    var dd := InsertFirst(EmptyDag(f.roots, size), s.dag.events, f.events, |f.events|).value;
    RegrownFromPart(s.dag, d, dd);
    CachesOutliveRestart(d, dd, cache);
  }
}
