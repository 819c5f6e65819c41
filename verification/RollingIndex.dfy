/** The bounded window over a participant's log, and the unbounded log it stands for. */
module RollingIndices {
  import opened Dags

  /** What a RollingIndex holds: the newest items and the index of the last one. */
  datatype Window<T> = Window(size: nat, lastIndex: int, items: seq<T>) {
    function Oldest(): int { lastIndex - |items| + 1 }

    /** Room is made by dropping the oldest `size` items once 2 * size are held. */
    function Rolled(): Window<T> {
      if |items| >= 2 * size then this.(items := items[size..]) else this
    }

    function Set(item: T, index: int): Result<Window<T>> {
      if 0 <= lastIndex && index > lastIndex + 1 then Err(SkippedIndex)
      else if lastIndex < 0 || index == lastIndex + 1 then
        Ok(Window(size, index, Rolled().items + [item]))
      else if index < Oldest() then Err(TooLate)
      else Ok(this.(items := items[index - Oldest() := item]))
    }

    function Get(skip: int): Result<seq<T>> {
      if skip > lastIndex then Ok([])
      else if skip + 1 < Oldest() then Err(TooLate)
      else Ok(items[skip - Oldest() + 1..])
    }

    function GetItem(index: int): Result<T> {
      if index < Oldest() then Err(TooLate)
      else if index - Oldest() >= |items| then Err(KeyNotFound)
      else Ok(items[index - Oldest()])
    }
  }

  /** A participant's whole log: the index of its first entry, and every entry since. */
  datatype Log<T> = Log(first: int, entries: seq<T>) {
    function Last(): int { first + |entries| - 1 }

    /** The entry goes at the end or over an earlier one; the first entry fixes where the log starts. */
    function Set(item: T, index: int): Log<T>
      requires entries == [] || first <= index <= Last() + 1
    {
      if entries == [] then Log(index, [item])
      else if index == Last() + 1 then Log(first, entries + [item])
      else Log(first, entries[index - first := item])
    }

    /** The entries after index `skip`. */
    function After(skip: int): seq<T>
      requires first <= skip + 1
    {
      if skip >= Last() then [] else entries[skip + 1 - first..]
    }
  }

  /** The window shows the end of the log, with no gap, holds at least the last
      `size` entries there are and never more than twice that. */
  ghost predicate Shows<T>(w: Window<T>, l: Log<T>) {
    && w.lastIndex == l.Last()
    && (l.entries == [] ==> l.first == 0)
    && |w.items| <= |l.entries|
    && w.items == l.entries[|l.entries| - |w.items|..]
    && (|l.entries| <= w.size ==> w.items == l.entries)
    && (w.size <= |l.entries| ==> w.size <= |w.items|)
    && (1 <= w.size ==> |w.items| <= 2 * w.size)
  }

  /** A Set can only leave the indexes contiguous if it starts the window, or the
      guards of Set see a non-negative last index, or it happens to be the next one. */
  predicate Contiguous<T>(w: Window<T>, index: int) {
    w.items == [] || 0 <= w.lastIndex || index == w.lastIndex + 1
  }

  /** One Set keeps the window on the log, and is refused exactly when the index
      jumps ahead or has rolled out. */
  lemma {:induction false} SetShows<T>(w: Window<T>, l: Log<T>, item: T, index: int)
    requires Shows(w, l) && 1 <= w.size && Contiguous(w, index)
    ensures w.Set(item, index) == Err(SkippedIndex) <==> l.entries != [] && index > l.Last() + 1
    ensures w.Set(item, index) == Err(TooLate) <==> l.entries != [] && index < w.Oldest()
    ensures w.Set(item, index).Ok? ==>
              && (l.entries == [] || l.first <= index <= l.Last() + 1)
              && Shows(w.Set(item, index).value, l.Set(item, index))
  {
    if w.Set(item, index).Ok? {
      if l.entries != [] && index <= l.Last() {
        OverwriteShows(w, l, item, index);
      } else {
        AppendShows(w, l, item, index);
      }
    }
  }

  /** Whatever log it is that the window shows. */
  lemma {:induction false} SetShowsAll<T(!new)>(w: Window<T>, item: T, index: int)
    ensures 1 <= w.size ==> forall l :: Shows(w, l) && Contiguous(w, index) && w.Set(item, index).Ok? ==>
              (l.entries == [] || l.first <= index <= l.Last() + 1)
                && Shows(w.Set(item, index).value, l.Set(item, index))
  {
    hide Shows, Contiguous, Window.Set, Log.Set;
    forall l | 1 <= w.size && Shows(w, l) && Contiguous(w, index) && w.Set(item, index).Ok?
      ensures l.entries == [] || l.first <= index <= l.Last() + 1
      ensures Shows(w.Set(item, index).value, l.Set(item, index))
    {
      SetShows(w, l, item, index);
    }
  }

  lemma {:induction false} OverwriteShows<T>(w: Window<T>, l: Log<T>, item: T, index: int)
    requires Shows(w, l) && w.Oldest() <= index <= w.lastIndex && l.entries != []
    ensures Shows(w.(items := w.items[index - w.Oldest() := item]), l.Set(item, index))
  {
    var k := |l.entries| - |w.items|;
    assert w.items[index - w.Oldest() := item] == l.entries[index - l.first := item][k..];
  }

  lemma {:induction false} AppendShows<T>(w: Window<T>, l: Log<T>, item: T, index: int)
    requires Shows(w, l) && 1 <= w.size && (l.entries == [] || index == l.Last() + 1)
    ensures Shows(Window(w.size, index, w.Rolled().items + [item]), l.Set(item, index))
  {
    var kept := w.Rolled().items;
    RolledShows(w, l);
    var entries := l.Set(item, index).entries;
    assert entries == l.entries + [item];
    assert kept + [item] == entries[|l.entries| - |kept|..];
  }

  lemma {:induction false} RolledShows<T>(w: Window<T>, l: Log<T>)
    requires Shows(w, l) && 1 <= w.size
    ensures var kept := w.Rolled().items;
            && |kept| <= |l.entries| && kept == l.entries[|l.entries| - |kept|..] && |kept| < 2 * w.size
            && (|l.entries| < w.size ==> kept == l.entries) && (w.size <= |l.entries| ==> w.size <= |kept|)
  {
  }

  /** Items that are their own indexes, each filed where it belongs. */
  ghost predicate Aligned(w: Window<int>) {
    forall k :: 0 <= k < |w.items| ==> w.items[k] == w.Oldest() + k
  }

  /** The guard in Set misses one case: while the last index is negative, any
      index is appended.  An accepted Set keeps every item under the index it
      was Set with exactly when it is not that case. */
  lemma {:induction false} SetAlignedIff(w: Window<int>, index: int)
    requires Aligned(w) && 1 <= w.size && w.Set(index, index).Ok?
    ensures Aligned(w.Set(index, index).value) <==> Contiguous(w, index)
  {
    var w' := w.Set(index, index).value;
    if w.items != [] && (w.lastIndex < 0 || index == w.lastIndex + 1) {
      var k := |w'.items| - 2;
      assert w'.items[k] == w.lastIndex;
    }
  }

  // ---------------------------------------------------------------- runs

  /** A refused Set leaves the window as it was. */
  function AfterSets<T>(w: Window<T>, sets: seq<(T, int)>): Window<T>
    decreases |sets|
  {
    if sets == [] then w
    else
      var r := w.Set(sets[0].0, sets[0].1);
      AfterSets(if r.Ok? then r.value else w, sets[1..])
  }

  /** The log the accepted Sets of a run spell out. */
  function LogAfterSets<T>(w: Window<T>, l: Log<T>, sets: seq<(T, int)>): Log<T>
    decreases |sets|
  {
    if sets == [] then l
    else
      var (item, index) := sets[0];
      var r := w.Set(item, index);
      if r.Ok? && (l.entries == [] || l.first <= index <= l.Last() + 1)
      then LogAfterSets(r.value, l.Set(item, index), sets[1..])
      else LogAfterSets(w, l, sets[1..])
  }

  ghost predicate StartsAtOrAboveZero<T>(w: Window<T>, sets: seq<(T, int)>) {
    || 0 <= w.lastIndex
    || (w.items == [] && (sets != [] ==> 0 <= sets[0].1))
  }

  lemma {:induction false} StartKept<T>(w: Window<T>, l: Log<T>, sets: seq<(T, int)>)
    requires Shows(w, l) && StartsAtOrAboveZero(w, sets) && sets != []
    ensures Contiguous(w, sets[0].1)
    ensures var r := w.Set(sets[0].0, sets[0].1);
            if r.Ok? then 0 <= r.value.lastIndex && r.value.size == w.size else StartsAtOrAboveZero(w, sets[1..])
  {
  }

  /** Over any run of Sets that does not start below index zero, the window shows
      the end of the log, whatever was refused on the way. */
  lemma {:induction false} RunShows<T>(w: Window<T>, l: Log<T>, sets: seq<(T, int)>)
    requires Shows(w, l) && 1 <= w.size && StartsAtOrAboveZero(w, sets)
    ensures Shows(AfterSets(w, sets), LogAfterSets(w, l, sets))
    decreases |sets|
  {
    hide Shows, Contiguous, Window.Set, Log.Set, Window.Oldest;
    if sets != [] {
      var (item, index) := sets[0];
      StartKept(w, l, sets);
      SetShows(w, l, item, index);
      var r := w.Set(item, index);
      if r.Ok? {
        RunShows(r.value, l.Set(item, index), sets[1..]);
      } else {
        RunShows(w, l, sets[1..]);
      }
    }
  }

  /** Reading through the window is reading the log, or being told exactly that it has rolled out or is not there. */
  lemma {:induction false} ReadsShow<T>(w: Window<T>, l: Log<T>, i: int)
    requires Shows(w, l)
    ensures w.Get(i) == if i > l.Last() then Ok([])
                        else if i + 1 < w.Oldest() then Err(TooLate)
                        else Ok(l.After(i))
    ensures w.GetItem(i) == if i < w.Oldest() then Err(TooLate)
                            else if i > l.Last() then Err(KeyNotFound)
                            else Ok(l.entries[i - l.first])
    ensures w.Oldest() == l.first + |l.entries| - |w.items|
  {
    if w.Oldest() - 1 <= i <= l.Last() {
      assert w.items[i - w.Oldest() + 1..] == l.After(i);
    }
  }

  // ---------------------------------------------------------------- the logs of the graph

  /** The window is what the store has cached of a participant's log. */
  ghost predicate EndOf(w: Window<Hash>, d: Dag, c: Creator)
    requires c in d.logs
  {
    var log := d.logs[c];
    && w.size == d.cacheSize && w.lastIndex == LastLogged(d, c)
    && w.items == log[|log| - Held(|log|, d.cacheSize)..]
  }

  lemma {:induction false} RolledEnd(w: Window<Hash>, log: seq<Hash>, h: Hash)
    requires w.items == log[|log| - Held(|log|, w.size)..]
    ensures w.Rolled().items + [h] == (log + [h])[|log| + 1 - Held(|log| + 1, w.size)..]
  {
  }

  lemma {:induction false} ReplacedEnd(log: seq<Hash>, k: nat, i: nat, h: Hash)
    requires k <= |log| && i < k
    ensures log[|log| - k..][i := h] == log[|log| - k + i := h][|log| - k..]
  {
  }

  lemma {:induction false} LogIsFiled(d: Dag, h: Hash, e: Event, log: seq<Hash>)
    ensures var d' := StoredIn(d, h, e, log);
            e.creator in d'.logs && d'.logs[e.creator] == log && d'.cacheSize == d.cacheSize
  {
  }

  lemma {:induction false} LastAfter(d: Dag, h: Hash, e: Event)
    requires e.creator in d.logs && h !in d.events && Logged(d, h, e).Ok?
    ensures var log := Logged(d, h, e).value;
            LastLogged(StoredIn(d, h, e, log), e.creator) ==
            if |log| > |d.logs[e.creator]| then e.index else LastLogged(d, e.creator)
  {
    hide Held;
  }

  /** The graph files an event in its creator's log exactly as the window does, or refuses it with the same error. */
  lemma {:induction false} LoggedAsSet(w: Window<Hash>, d: Dag, h: Hash, e: Event)
    requires e.creator in d.logs && h !in d.events && EndOf(w, d, e.creator)
    ensures var log, set' := Logged(d, h, e), w.Set(h, e.index);
            if log.Err? then set' == Err(log.error)
            else set'.Ok? && EndOf(set'.value, StoredIn(d, h, e, log.value), e.creator)
  {
    hide Held, LastLogged, Window.Rolled, StoredIn;
    var log, k := d.logs[e.creator], Held(|d.logs[e.creator]|, d.cacheSize);
    if Logged(d, h, e).Ok? {
      LastAfter(d, h, e);
      LogIsFiled(d, h, e, Logged(d, h, e).value);
      if |Logged(d, h, e).value| > |log| {
        RolledEnd(w, log, h);
      } else {
        ReplacedEnd(log, k, e.index - w.Oldest(), h);
      }
    }
  }

  // ---------------------------------------------------------------- the class

  class RollingIndex<T(!new)> {
    const size: nat
    var lastIndex: int
    var items: seq<T>

    ghost function View(): Window<T>
      reads this
    {
      Window(size, lastIndex, items)
    }

    constructor (size: nat)
      ensures View() == Window(size, -1, [])
      ensures Shows(View(), Log(0, []))
    {
      this.size, this.lastIndex, this.items := size, -1, [];
    }

    method Get(skip: int) returns (r: Result<seq<T>>)
      ensures r == View().Get(skip)
      ensures forall l :: Shows(View(), l) ==>
                r == if skip > l.Last() then Ok([])
                     else if skip + 1 < View().Oldest() then Err(TooLate)
                     else Ok(l.After(skip))
    {
      forall l | Shows(View(), l) { ReadsShow(View(), l, skip); }
      if skip > lastIndex {
        return Ok([]);
      }
      var oldestCachedIndex := lastIndex - |items| + 1;
      if skip + 1 < oldestCachedIndex {
        return Err(TooLate);
      }
      var start := skip - oldestCachedIndex + 1;
      return Ok(items[start..]);
    }

    /** The log's entry at an index, unless it has rolled out or is not there yet. */
    method GetItem(index: int) returns (r: Result<T>)
      ensures r == View().GetItem(index)
      ensures forall l :: Shows(View(), l) ==>
                r == if index < View().Oldest() then Err(TooLate)
                     else if index > l.Last() then Err(KeyNotFound)
                     else Ok(l.entries[index - l.first])
    {
      forall l | Shows(View(), l) { ReadsShow(View(), l, index); }
      var oldestCached := lastIndex - |items| + 1;
      if index < oldestCached {
        return Err(TooLate);
      }
      var findex := index - oldestCached;
      if findex >= |items| {
        return Err(KeyNotFound);
      }
      return Ok(items[findex]);
    }

    /** `error` is None when the item went in. */
    method Set(item: T, index: int) returns (error: Option<Error>)
      modifies this
      ensures var r := old(View()).Set(item, index);
              if r.Ok? then error == None && View() == r.value
              else error == Some(r.error) && View() == old(View())
      ensures 1 <= size ==> forall l :: Shows(old(View()), l) && Contiguous(old(View()), index) && error == None ==>
                (l.entries == [] || l.first <= index <= l.Last() + 1) && Shows(View(), l.Set(item, index))
    {
      hide Shows, Log.Set;
      SetShowsAll(View(), item, index);
      if 0 <= lastIndex && index > lastIndex + 1 {
        return Some(SkippedIndex);
      }
      if lastIndex < 0 || index == lastIndex + 1 {
        if |items| >= 2 * size {
          Roll();
        }
        items := items + [item];
        lastIndex := index;
        return None;
      }
      var oldestCachedIndex := lastIndex - |items| + 1;
      if index < oldestCachedIndex {
        return Some(TooLate);
      }
      var position := index - oldestCachedIndex;
      items := items[position := item];
      return None;
    }

    method Roll()
      requires size <= |items|
      modifies this`items
      ensures items == old(items)[size..]
    {
      items := items[size..];
    }
  }
}
