/** The two-level store: a database behind a cache of events and windows of recent
    event hashes. */
module Stores {
  import opened Dags
  import opened Caches
  import opened RollingIndices

  /** An event with what consensus has written on it so far; only the event is hashed. */
  datatype Entry = Entry(
    event: Event, topologicalIndex: int, round: Option<int>, lamport: Option<int>, received: Option<int>)

  // ---------------------------------------------------------------- the database

  /** The participant index of the database is the logs, entry by entry. */
  ghost predicate IndexShows(index: map<(Creator, int), Hash>, logs: map<Creator, Log<Hash>>) {
    && (forall c, i :: (c, i) in index <==> c in logs && logs[c].first <= i <= logs[c].Last())
    && (forall c, i :: (c, i) in index ==> index[(c, i)] == logs[c].entries[i - logs[c].first])
  }

  /** Each stored event sits in its creator's log, at its index, and nothing else is there. */
  ghost predicate Filed(hash: Event -> Hash, events: map<Hash, Entry>, logs: map<Creator, Log<Hash>>) {
    && (forall h :: h in events ==> FiledAt(hash, events[h].event, h, logs))
    && (forall c, h :: c in logs && h in logs[c].entries ==> h in events)
  }

  ghost predicate FiledAt(hash: Event -> Hash, e: Event, h: Hash, logs: map<Creator, Log<Hash>>) {
    && hash(e) == h && e.creator in logs && logs[e.creator].first <= e.index <= logs[e.creator].Last()
    && logs[e.creator].entries[e.index - logs[e.creator].first] == h
  }

  ghost predicate WindowsShow(windows: map<Creator, Window<Hash>>, size: nat, logs: map<Creator, Log<Hash>>) {
    && windows.Keys == logs.Keys
    && forall c :: c in windows ==> Shows(windows[c], logs[c]) && windows[c].size == size && 0 <= logs[c].first
  }

  /** The listing of a participant's events after `skip`; nothing is listed from before the start of its log. */
  function Listing(logs: map<Creator, Log<Hash>>, c: Creator, skip: int): seq<Hash> {
    if c in logs && logs[c].first <= skip + 1 then logs[c].After(skip) else []
  }

  /** What the poset guarantees of an event it stores: its index is not negative, its hash
      names it alone, and where its index is taken, it is by itself. */
  ghost predicate Storable(hash: Event -> Hash, events: map<Hash, Entry>, logs: map<Creator, Log<Hash>>, e: Event) {
    && 0 <= e.index
    && (hash(e) in events ==> events[hash(e)].event == e)
    && (e.creator in logs && logs[e.creator].first <= e.index <= logs[e.creator].Last() ==>
          logs[e.creator].entries[e.index - logs[e.creator].first] == hash(e))
  }

  /** A new event goes at the end of its creator's log; a stored one leaves the log alone. */
  ghost predicate Fits(events: map<Hash, Entry>, l: Log<Hash>, h: Hash, index: int) {
    && (l.entries == [] || l.first <= index <= l.Last() + 1)
    && (if h in events then l.entries != [] && l.Set(h, index) == l else l.entries == [] || index == l.Last() + 1)
  }

  /** The logs after an event has gone in: those before, or one longer at its end. */
  ghost predicate Extended(events: map<Hash, Entry>, logs: map<Creator, Log<Hash>>, logs': map<Creator, Log<Hash>>,
                           h: Hash, e: Event) {
    && e.creator in logs && Fits(events, logs[e.creator], h, e.index)
    && if h in events then logs' == logs else logs' == logs[e.creator := logs[e.creator].Set(h, e.index)]
  }

  lemma {:induction false} StoredFits(hash: Event -> Hash, events: map<Hash, Entry>, logs: map<Creator, Log<Hash>>,
                                      e: Event)
    requires Filed(hash, events, logs) && Storable(hash, events, logs, e) && hash(e) in events
    ensures e.creator in logs && Fits(events, logs[e.creator], hash(e), e.index)
  {
    assert FiledAt(hash, e, hash(e), logs);
  }

  /** What the window accepts fits, and the window goes on showing the log. */
  lemma {:induction false} WindowFits(hash: Event -> Hash, events: map<Hash, Entry>, logs: map<Creator, Log<Hash>>,
                                      windows: map<Creator, Window<Hash>>, size: nat, e: Event)
    requires Filed(hash, events, logs) && WindowsShow(windows, size, logs) && 1 <= size
    requires Storable(hash, events, logs, e)
    requires e.creator in windows && windows[e.creator].Set(hash(e), e.index).Ok?
    ensures e.creator in logs && Fits(events, logs[e.creator], hash(e), e.index)
    ensures var c, h := e.creator, hash(e);
            WindowsShow(windows[c := windows[c].Set(h, e.index).value], size, logs[c := logs[c].Set(h, e.index)])
  {
    hide Shows, Window.Set, Log.Set, Storable, Filed, WindowsShow;
    var c, h := e.creator, hash(e);
    WindowShows(windows, size, logs, c);
    TakenIsStored(hash, events, logs, e);
    WindowAccepts(windows[c], logs[c], h, e.index);
    if h in events {
      StoredFits(hash, events, logs, e);
    }
    WindowReplaced(windows, size, logs, c, windows[c].Set(h, e.index).value, logs[c].Set(h, e.index));
  }

  lemma {:induction false} WindowShows(windows: map<Creator, Window<Hash>>, size: nat, logs: map<Creator, Log<Hash>>,
                                       c: Creator)
    requires WindowsShow(windows, size, logs) && c in windows
    ensures c in logs && Shows(windows[c], logs[c]) && windows[c].size == size && 0 <= logs[c].first
  {
    hide Shows;
  }

  lemma {:induction false} WindowReplaced(windows: map<Creator, Window<Hash>>, size: nat, logs: map<Creator, Log<Hash>>,
                                          c: Creator, w: Window<Hash>, l: Log<Hash>)
    requires WindowsShow(windows, size, logs) && c in windows && Shows(w, l) && w.size == size && 0 <= l.first
    ensures WindowsShow(windows[c := w], size, logs[c := l])
  {
    hide Shows;
    assert windows[c := w].Keys == logs[c := l].Keys;
  }

  lemma {:induction false} WindowAccepts(w: Window<Hash>, l: Log<Hash>, h: Hash, index: int)
    requires Shows(w, l) && 1 <= w.size && 0 <= l.first && 0 <= index && w.Set(h, index).Ok?
    ensures l.entries == [] || l.first <= index <= l.Last() + 1
    ensures Shows(w.Set(h, index).value, l.Set(h, index)) && w.Set(h, index).value.size == w.size
    ensures 0 <= l.Set(h, index).first
  {
    WindowStarts(w, l, index);
    SetShows(w, l, h, index);
    SetKeeps(w, l, h, index);
  }

  lemma {:induction false} SetKeeps(w: Window<Hash>, l: Log<Hash>, h: Hash, index: int)
    requires w.Set(h, index).Ok? && 0 <= l.first && 0 <= index && (l.entries == [] || l.first <= index <= l.Last() + 1)
    ensures w.Set(h, index).value.size == w.size && 0 <= l.Set(h, index).first
  {
  }

  lemma {:induction false} TakenIsStored(hash: Event -> Hash, events: map<Hash, Entry>, logs: map<Creator, Log<Hash>>,
                                         e: Event)
    requires Filed(hash, events, logs) && Storable(hash, events, logs, e)
    ensures 0 <= e.index
    ensures e.creator in logs && logs[e.creator].first <= e.index <= logs[e.creator].Last() ==> hash(e) in events
  {
    if e.creator in logs && logs[e.creator].first <= e.index <= logs[e.creator].Last() {
      assert logs[e.creator].entries[e.index - logs[e.creator].first] in logs[e.creator].entries;
    }
  }

  lemma {:induction false} WindowStarts(w: Window<Hash>, l: Log<Hash>, index: int)
    requires Shows(w, l) && 1 <= w.size && 0 <= l.first
    ensures Contiguous(w, index)
  {
  }

  lemma {:induction false} FiledStays(hash: Event -> Hash, events: map<Hash, Entry>, logs: map<Creator, Log<Hash>>,
                                      x: Entry)
    requires Filed(hash, events, logs) && Storable(hash, events, logs, x.event)
    requires x.event.creator in logs && Fits(events, logs[x.event.creator], hash(x.event), x.event.index)
    ensures var e := x.event;
            Filed(hash, events[hash(e) := x], logs[e.creator := logs[e.creator].Set(hash(e), e.index)])
  {
    var e := x.event;
    var c, h := e.creator, hash(e);
    var events', logs' := events[h := x], logs[c := logs[c].Set(h, e.index)];
    forall g | g in events' ensures FiledAt(hash, events'[g].event, g, logs') {
      if g != h {
        assert FiledAt(hash, events[g].event, g, logs);
      } else if h in events {
        assert FiledAt(hash, e, h, logs);
      }
    }
  }

  lemma {:induction false} IndexStays(index: map<(Creator, int), Hash>, logs: map<Creator, Log<Hash>>, h: Hash,
                                      e: Event)
    requires IndexShows(index, logs) && e.creator in logs
    requires logs[e.creator].entries == [] || e.index == logs[e.creator].Last() + 1
    ensures IndexShows(index[(e.creator, e.index) := h], logs[e.creator := logs[e.creator].Set(h, e.index)])
  {
    var c := e.creator;
    var l := logs[c];
    var index', logs' := index[(c, e.index) := h], logs[c := l.Set(h, e.index)];
    forall b, i ensures (b, i) in index' <==> b in logs' && logs'[b].first <= i <= logs'[b].Last() {
      assert (b, i) in index <==> b in logs && logs[b].first <= i <= logs[b].Last();
    }
    forall b, i | (b, i) in index' ensures index'[(b, i)] == logs'[b].entries[i - logs'[b].first] {
      if (b, i) in index {
        assert index[(b, i)] == logs[b].entries[i - logs[b].first];
      }
    }
  }

  // ---------------------------------------------------------------- the class

  class BadgerStore {
    const size: nat
    const hash: Event -> Hash

    // in memory
    var eventCache: map<Hash, Entry>
    var windows: map<Creator, Window<Hash>>

    // in the database
    var dbEvents: map<Hash, Entry>
    var dbTopological: map<int, Hash>
    var dbParticipant: map<(Creator, int), Hash>

    ghost var written: map<Hash, Entry>           // the last value written under each hash
    ghost var logs: map<Creator, Log<Hash>>       // every event of each participant, in order

    /** The database holds the last value written under each hash, and the cache part of that. */
    ghost predicate Cached()
      reads this
    {
      dbEvents == written && Evicted(written, eventCache)
    }

    ghost predicate Valid()
      reads this
    {
      && 1 <= size && Cached()
      && WindowsShow(windows, size, logs) && IndexShows(dbParticipant, logs) && Filed(hash, written, logs)
    }

    constructor (participants: set<Creator>, size: nat, hash: Event -> Hash)
      requires 1 <= size
      ensures Valid() && this.hash == hash && this.size == size && written == map[]
      ensures logs == map c | c in participants :: Log(0, [])
    {
      hide WindowsShow, IndexShows, Filed;
      this.size, this.hash := size, hash;
      eventCache, dbEvents, dbTopological, dbParticipant := map[], map[], map[], map[];
      windows := map c | c in participants :: Window(size, -1, []);
      written, logs := map[], map c | c in participants :: Log(0, []);
      new;
      NothingStored(participants, size, hash);
    }

    /** The cache may lose any of its entries between any two calls. */
    method LoseFromCache()
      requires Cached()
      modifies this`eventCache
      ensures Cached() && (old(Valid()) ==> Valid())
    {
      eventCache := Evict(eventCache);
    }

    /** The last value written, wherever it is found. */
    method GetEvent(h: Hash) returns (r: Result<Entry>)
      requires Cached()
      ensures r == if h in written then Ok(written[h]) else Err(KeyNotFound)
    {
      if h in eventCache {
        return Ok(eventCache[h]);
      }
      if h in dbEvents {
        return Ok(dbEvents[h]);
      }
      return Err(KeyNotFound);
    }

    /** The in-memory half of SetEvent: an event the cache does not hold goes into its creator's window first. */
    method CacheEvent(h: Hash, x: Entry) returns (error: Option<Error>)
      modifies this`eventCache, this`windows
      ensures var c := x.event.creator;
              if h in old(eventCache) then error == None && windows == old(windows)
              else if c !in old(windows) then error == Some(UnknownParticipant)
              else
                var r := old(windows)[c].Set(h, x.event.index);
                if r.Err? then error == Some(r.error) else error == None && windows == old(windows)[c := r.value]
      ensures error == None ==> eventCache == old(eventCache)[h := x]
      ensures error != None ==> windows == old(windows) && eventCache == old(eventCache)
    {
      if h !in eventCache {
        var c := x.event.creator;
        if c !in windows {
          return Some(UnknownParticipant);
        }
        var r := windows[c].Set(h, x.event.index);
        if r.Err? {
          return Some(r.error);
        }
        windows := windows[c := r.value];
      }
      eventCache := eventCache[h := x];
      return None;
    }

    /** The database half: the two indexes are written only for a hash the database does not hold. */
    method DbSetEvent(h: Hash, x: Entry)
      modifies this`dbEvents, this`dbTopological, this`dbParticipant
      ensures dbEvents == old(dbEvents)[h := x]
      ensures dbParticipant == if h in old(dbEvents) then old(dbParticipant)
                else old(dbParticipant)[(x.event.creator, x.event.index) := h]
      ensures dbTopological == if h in old(dbEvents) then old(dbTopological)
                else old(dbTopological)[x.topologicalIndex := h]
    {
      var isNew := h !in dbEvents;
      dbEvents := dbEvents[h := x];
      if isNew {
        dbTopological := dbTopological[x.topologicalIndex := h];
        dbParticipant := dbParticipant[(x.event.creator, x.event.index) := h];
      }
    }

    /** Writes through to the database, or changes nothing. The windows and the index of the
        database go on showing one log per participant if the event can be filed in it. */
    method SetEvent(x: Entry) returns (error: Option<Error>)
      requires Cached()
      modifies this
      ensures Cached()
      ensures var e, h := x.event, hash(x.event);
              error == None <==>
                 h in old(eventCache) || (e.creator in old(windows) && old(windows)[e.creator].Set(h, e.index).Ok?)
      ensures error == None ==> written == old(written)[hash(x.event) := x]
      ensures var e, h := x.event, hash(x.event);
              error != None ==>
                && written == old(written) && logs == old(logs) && windows == old(windows)
                && dbParticipant == old(dbParticipant)
                && if e.creator in windows then windows[e.creator].Set(h, e.index) == Err(error.value)
                     else error == Some(UnknownParticipant)
      ensures old(Valid() && Storable(hash, written, logs, x.event)) ==>
                Valid() && (error == None ==> Extended(old(written), old(logs), logs, hash(x.event), x.event))
    {
      hide IndexShows, Filed, WindowsShow, Storable, Fits, Window.Set, Log.Set;
      var e := x.event;
      var h := hash(e);
      ghost var filed := Valid() && Storable(hash, written, logs, e);
      if filed && h in written {
        StoredFits(hash, written, logs, e);
      }
      if filed && e.creator in windows && windows[e.creator].Set(h, e.index).Ok? {
        WindowFits(hash, written, logs, windows, size, e);
      }
      error := CacheEvent(h, x);
      if error != None {
        return;
      }
      if filed {
        FitsParts(written, logs, h, e);
        FiledStays(hash, written, logs, x);
        if h !in written {
          IndexStays(dbParticipant, logs, h, e);
        }
      }
      DbSetEvent(h, x);
      if filed {
        logs := logs[e.creator := logs[e.creator].Set(h, e.index)];
      }
      written := written[h := x];
    }

    /** The database scan: from `skip + 1` on until an index is missing. */
    method DbParticipantEvents(c: Creator, skip: int) returns (list: seq<Hash>)
      requires Valid()
      ensures list == Listing(logs, c, skip)
    {
      hide Filed, WindowsShow;
      list := [];
      var i := skip + 1;
      while (c, i) in dbParticipant
        invariant skip + 1 <= i
        invariant c in logs && logs[c].first <= skip + 1 <= logs[c].Last() ==>
                    i <= logs[c].Last() + 1 && list == logs[c].entries[skip + 1 - logs[c].first..i - logs[c].first]
        invariant !(c in logs && logs[c].first <= skip + 1 <= logs[c].Last()) ==> i == skip + 1 && list == []
        decreases if c in logs then logs[c].Last() + 1 - i else 0
      {
        list := list + [dbParticipant[(c, i)]];
        i := i + 1;
      }
    }

    /** A participant's events after `skip`: from the window if it reaches back that far, else from the database. */
    method ParticipantEvents(c: Creator, skip: int) returns (list: seq<Hash>)
      requires Valid()
      ensures list == Listing(logs, c, skip)
    {
      hide Filed, IndexShows;
      if c in windows {
        ReadsShow(windows[c], logs[c], skip);
        var r := windows[c].Get(skip);
        if r.Ok? {
          return r.value;
        }
      }
      list := DbParticipantEvents(c, skip);
    }
  }

  lemma {:induction false} FitsParts(events: map<Hash, Entry>, logs: map<Creator, Log<Hash>>, h: Hash, e: Event)
    requires e.creator in logs && Fits(events, logs[e.creator], h, e.index)
    ensures logs[e.creator].entries == [] || logs[e.creator].first <= e.index <= logs[e.creator].Last() + 1
    ensures h in events ==> logs[e.creator := logs[e.creator].Set(h, e.index)] == logs
    ensures h !in events ==> logs[e.creator].entries == [] || e.index == logs[e.creator].Last() + 1
  {
  }

  lemma {:induction false} NothingStored(participants: set<Creator>, size: nat, hash: Event -> Hash)
    ensures var logs: map<Creator, Log<Hash>> := map c | c in participants :: Log(0, []);
            && WindowsShow(map c | c in participants :: Window(size, -1, []), size, logs)
            && IndexShows(map[], logs) && Filed(hash, map[], logs)
  {
    hide WindowsShow, IndexShows, Filed;
    NoWindows(participants, size);
    NoIndex(participants);
    NoEntries(participants, hash);
  }

  lemma {:induction false} NoWindows(participants: set<Creator>, size: nat)
    ensures WindowsShow(map c | c in participants :: Window(size, -1, []), size, map c | c in participants :: Log(0, []))
  {
    hide Shows;
    EmptyShows(size);
  }

  lemma {:induction false} NoIndex(participants: set<Creator>)
    ensures IndexShows(map[], map c | c in participants :: Log(0, []))
  {
  }

  lemma {:induction false} NoEntries(participants: set<Creator>, hash: Event -> Hash)
    ensures Filed(hash, map[], map c | c in participants :: Log(0, []))
  {
  }

  lemma {:induction false} EmptyShows(size: nat)
    ensures Shows<Hash>(Window(size, -1, []), Log(0, []))
  {
  }
}
