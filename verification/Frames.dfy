/** The roots that go with a frame, and restarting an empty graph from a frame. */
module Frames {
  import opened Dags
  import opened Rounds

  // ---------------------------------------------------------------- creating roots

  ghost function SelfRoot(d: Dag, h: Hash): RootEvent
    requires Based(d) && h in d.events
  {
    Parents(d, h);
    var e := d.events[h];
    RootEvent(e.selfParent, e.creator, e.index - 1, Lamport(d, e.selfParent), Round(d, e.selfParent))
  }

  ghost function OtherRoot(d: Dag, h: Hash): RootEvent
    requires Based(d) && h in d.events && d.events[h].otherParent in d.events
  {
    var op := d.events[h].otherParent;
    RootEvent(op, d.events[op].creator, d.events[op].index, Lamport(d, op), Round(d, op))
  }

  /** A root that `h` can be put on: its self-parent, and its other-parent if it has one. */
  ghost function CreatedRoot(d: Dag, h: Hash): Root
    requires Based(d) && h in d.events
  {
    NamedIsStored(d, h);
    Root(Round(d, h), SelfRoot(d, h), if d.events[h].otherParent == NoHash then map[] else map[h := OtherRoot(d, h)])
  }

  lemma {:induction false} NamedIsStored(d: Dag, h: Hash)
    requires Based(d) && h in d.events
    ensures d.events[h].otherParent != NoHash ==> d.events[h].otherParent in d.events
    ensures d.events[h].otherParent != h
  {
    Parents(d, h);
    assert d.roots[d.events[h].creator] == BaseRoot(d.events[h].creator);
  }

  /** The first event of creator `c` in the list. */
  function FirstOf(d: Dag, list: seq<Hash>, c: Creator): Option<Hash>
    requires AllStored(d, list)
  {
    if list == [] then None
    else
      var n := |list| - 1;
      var first := FirstOf(d, list[..n], c);
      if first.Some? then first else if d.events[list[n]].creator == c then Some(list[n]) else None
  }

  /** The last listed event of each participant that has one. */
  ghost function LastsOf(d: Dag, list: seq<Hash>): (lasts: map<Creator, Hash>)
    requires Based(d) && AllStored(d, list)
    ensures LastsOk(d, lasts)
  {
    if list == [] then map[]
    else
      var n := |list| - 1;
      assert EventOk(d, list[n]);
      LastsOf(d, list[..n])[d.events[list[n]].creator := list[n]]
  }

  /** Of some participants, an event each. */
  ghost predicate LastsOk(d: Dag, lasts: map<Creator, Hash>) {
    forall c :: c in lasts ==> c in d.roots && lasts[c] in d.events && d.events[lasts[c]].creator == c
  }

  /** The root of `c` before other-parents outside the frame are recorded. */
  ghost function PlainRoot(d: Dag, lasts: map<Creator, Hash>, list: seq<Hash>, c: Creator): Root
    requires Based(d) && LastsOk(d, lasts) && AllStored(d, list) && c in d.roots
  {
    FirstIsListed(d, list, c);
    if FirstOf(d, list, c).Some? then CreatedRoot(d, FirstOf(d, list, c).value)
    else if c in lasts then CreatedRoot(d, lasts[c])
    else d.roots[c]
  }

  lemma {:induction false} FirstIsListed(d: Dag, list: seq<Hash>, c: Creator)
    requires AllStored(d, list)
    ensures FirstOf(d, list, c).Some? ==>
              FirstOf(d, list, c).value in list && FirstOf(d, list, c).value in d.events
                && d.events[FirstOf(d, list, c).value].creator == c
    ensures FirstOf(d, list, c) == None ==> forall i :: 0 <= i < |list| ==> d.events[list[i]].creator != c
  {
    if list != [] {
      FirstIsListed(d, list[..|list| - 1], c);
    }
  }

  /** The other-parent of the k-th event has to be recorded: it names one that is
      not listed before it, and its root does not record it already. */
  ghost predicate NeedsOther(d: Dag, roots: map<Creator, Root>, list: seq<Hash>, k: nat)
    requires AllStored(d, list) && k < |list|
  {
    var e := d.events[list[k]];
    e.otherParent != NoHash && e.otherParent !in list[..k] && e.creator in roots
      && e.selfParent != roots[e.creator].selfParent.hash
  }

  /** The roots once the first `k` events have been looked at for other-parents outside the frame. */
  ghost function WithOthers(d: Dag, roots: map<Creator, Root>, list: seq<Hash>, k: nat): map<Creator, Root>
    requires Based(d) && AllStored(d, list) && k <= |list|
  {
    if k == 0 then roots
    else
      var rs := WithOthers(d, roots, list, k - 1);
      NamedIsStored(d, list[k - 1]);
      if NeedsOther(d, rs, list, k - 1) then
        var c := d.events[list[k - 1]].creator;
        rs[c := rs[c].(others := rs[c].others[list[k - 1] := OtherRoot(d, list[k - 1])])]
      else rs
  }

  ghost function PlainRoots(d: Dag, lasts: map<Creator, Hash>, list: seq<Hash>): map<Creator, Root>
    requires Based(d) && LastsOk(d, lasts) && AllStored(d, list)
  {
    map c | c in d.roots :: PlainRoot(d, lasts, list, c)
  }

  /** The roots of the frame that lists these events. */
  ghost function FrameRoots(d: Dag, lasts: map<Creator, Hash>, list: seq<Hash>): map<Creator, Root>
    requires Based(d) && LastsOk(d, lasts) && AllStored(d, list)
  {
    WithOthers(d, PlainRoots(d, lasts, list), list, |list|)
  }

  /** The roots of a frame that lists these events, when those before it have been committed. */
  ghost function RootsAfter(d: Dag, committed: seq<Hash>, list: seq<Hash>): map<Creator, Root>
    requires Based(d) && AllStored(d, committed) && AllStored(d, list)
  {
    FrameRoots(d, LastsOf(d, committed), list)
  }

  // ---------------------------------------------------------------- the same roots from every graph

  lemma {:induction false} KnownAgrees(d: Dag, e: Dag, x: Hash)
    requires Based(d) && Based(e) && Agree(d, e) && Known(d, x) && Known(e, x)
    ensures Lamport(e, x) == Lamport(d, x) && Round(e, x) == Round(d, x) && (x in d.events <==> x in e.events)
  {
    hide WellFormed, Lamport, Round;
    LamportAgree(d, e, x);
    RoundAgree(d, e, x);
  }

  lemma {:induction false} OtherRootAgrees(d: Dag, e: Dag, h: Hash)
    requires Based(d) && Based(e) && Agree(d, e) && h in d.events && h in e.events && d.events[h].otherParent != NoHash
    ensures d.events[h].otherParent in d.events && e.events[h] == d.events[h] && e.events[h].otherParent in e.events
    ensures OtherRoot(e, h) == OtherRoot(d, h)
  {
    hide WellFormed, Lamport, Round;
    NamedIsStored(d, h);
    NamedIsStored(e, h);
    KnownAgrees(d, e, d.events[h].otherParent);
  }

  lemma {:induction false} CreatedRootAgrees(d: Dag, e: Dag, h: Hash)
    requires Based(d) && Based(e) && Agree(d, e) && h in d.events && h in e.events
    ensures CreatedRoot(e, h) == CreatedRoot(d, h)
  {
    Parents(d, h);
    Parents(e, h);
    hide WellFormed, Lamport, Round;
    KnownAgrees(d, e, h);
    KnownAgrees(d, e, d.events[h].selfParent);
    if d.events[h].otherParent != NoHash {
      OtherRootAgrees(d, e, h);
    }
  }

  lemma {:induction false} FirstOfAgrees(d: Dag, e: Dag, list: seq<Hash>, c: Creator)
    requires Agree(d, e) && AllStored(d, list) && AllStored(e, list)
    ensures FirstOf(e, list, c) == FirstOf(d, list, c)
  {
    if list != [] {
      FirstOfAgrees(d, e, list[..|list| - 1], c);
    }
  }

  lemma {:induction false} LastsAgree(d: Dag, e: Dag, list: seq<Hash>)
    requires Based(d) && Based(e) && Agree(d, e) && AllStored(d, list) && AllStored(e, list)
    ensures LastsOf(e, list) == LastsOf(d, list)
  {
    hide WellFormed;
    if list != [] {
      LastsAgree(d, e, list[..|list| - 1]);
    }
  }

  lemma {:induction false} PlainRootAgrees(d: Dag, e: Dag, lasts: map<Creator, Hash>, list: seq<Hash>, c: Creator)
    requires Based(d) && Based(e) && Agree(d, e) && LastsOk(d, lasts) && LastsOk(e, lasts) && AllStored(d, list)
    requires AllStored(e, list)
    requires c in d.roots
    ensures c in e.roots && PlainRoot(e, lasts, list, c) == PlainRoot(d, lasts, list, c)
  {
    hide WellFormed, CreatedRoot;
    FirstOfAgrees(d, e, list, c);
    FirstIsListed(d, list, c);
    FirstIsListed(e, list, c);
    if FirstOf(d, list, c).Some? {
      CreatedRootAgrees(d, e, FirstOf(d, list, c).value);
    } else if c in lasts {
      CreatedRootAgrees(d, e, lasts[c]);
    }
  }

  lemma {:induction false} PlainRootsAgree(d: Dag, e: Dag, lasts: map<Creator, Hash>, list: seq<Hash>)
    requires Based(d) && Based(e) && Agree(d, e) && LastsOk(d, lasts) && LastsOk(e, lasts) && AllStored(d, list)
    requires AllStored(e, list)
    ensures PlainRoots(e, lasts, list) == PlainRoots(d, lasts, list)
  {
    hide WellFormed, PlainRoot, LastsOk;
    forall c | c in d.roots ensures PlainRoot(e, lasts, list, c) == PlainRoot(d, lasts, list, c) {
      PlainRootAgrees(d, e, lasts, list, c);
    }
  }

  lemma {:induction false} WithOthersAgree(d: Dag, e: Dag, roots: map<Creator, Root>, list: seq<Hash>, k: nat)
    requires Based(d) && Based(e) && Agree(d, e) && AllStored(d, list) && AllStored(e, list) && k <= |list|
    ensures WithOthers(e, roots, list, k) == WithOthers(d, roots, list, k)
  {
    hide WellFormed, OtherRoot;
    if k > 0 {
      WithOthersAgree(d, e, roots, list, k - 1);
      if d.events[list[k - 1]].otherParent != NoHash {
        OtherRootAgrees(d, e, list[k - 1]);
      }
    }
  }

  /** Two graphs that agree give a frame the same roots. */
  lemma {:induction false} RootsAgree(d: Dag, e: Dag, committed: seq<Hash>, list: seq<Hash>)
    requires Based(d) && Based(e) && Agree(d, e) && AllStored(d, committed) && AllStored(e, committed)
    requires AllStored(d, list) && AllStored(e, list)
    ensures RootsAfter(e, committed, list) == RootsAfter(d, committed, list)
  {
    hide WellFormed, PlainRoots, WithOthers, LastsOk;
    LastsAgree(d, e, committed);
    var lasts := LastsOf(d, committed);
    PlainRootsAgree(d, e, lasts, list);
    WithOthersAgree(d, e, PlainRoots(d, lasts, list), list, |list|);
  }

  // ---------------------------------------------------------------- restarting

  ghost predicate Separate(roots: map<Creator, Root>) {
    forall b, c :: b in roots && c in roots && roots[b].selfParent.hash == roots[c].selfParent.hash ==> b == c
  }

  /** An empty store on the given roots. */
  function EmptyDag(roots: map<Creator, Root>, cacheSize: nat): Dag
    requires Separate(roots)
  {
    Dag(map[], map[], [], map c | c in roots :: [],
        roots, map c | c in roots :: roots[c].selfParent.hash := c, cacheSize)
  }

  /** The store after the first `k` listed events have gone through InsertEvent. */
  function InsertFirst(base: Dag, events: map<Hash, Event>, list: seq<Hash>, k: nat): Result<Dag>
    requires k <= |list| && forall i :: 0 <= i < |list| ==> list[i] in events
  {
    if k == 0 then Ok(base)
    else
      var r := InsertFirst(base, events, list, k - 1);
      if r.Err? then r else Insert(r.value, list[k - 1], events[list[k - 1]])
  }

  lemma {:induction false} InsertStops(base: Dag, events: map<Hash, Event>, list: seq<Hash>, k: nat, n: nat)
    requires k <= n <= |list| && forall i :: 0 <= i < |list| ==> list[i] in events
    requires InsertFirst(base, events, list, k).Err?
    ensures InsertFirst(base, events, list, n) == InsertFirst(base, events, list, k)
    decreases n - k
  {
    hide Insert;
    if k < n {
      InsertStops(base, events, list, k + 1, n);
    }
  }
}
