/** The state file and the dirty-flagged cache in front of it. */
module StateStore {
  import opened Prelude
  import opened Resources

  // ----- Go maps -----------------------------------------------------------------------------

  /** A Go map field: nil reads like an empty map but cannot be written. */
  datatype GoMap<V> = NilMap | MadeMap(entries: map<string, V>)
  {
    function All(): map<string, V> {
      if NilMap? then map[] else entries
    }

    function With(name: string, v: V): GoMap<V>
      requires MadeMap?
    {
      MadeMap(entries[name := v])
    }

    function Without(name: string): GoMap<V> {
      if NilMap? then this else MadeMap(entries - {name})
    }

    /** Empty maps are left out of the file and come back as nil. */
    function Persisted(): GoMap<V> {
      if All() == map[] then NilMap else this
    }
  }

  datatype StateData = StateData(tools: GoMap<ToolState>, runtimes: GoMap<RuntimeState>, repos: GoMap<RepoState>)

  /** The entry an identity has in the three maps. */
  function EntryOf(d: StateData, id: NodeID): Option<Entry> {
    match id.kind
    case KindTool => if id.name in d.tools.All() then Some(ToolEntry(d.tools.All()[id.name])) else None
    case KindRuntime => if id.name in d.runtimes.All() then Some(RuntimeEntry(d.runtimes.All()[id.name])) else None
    case KindInstallerRepository => if id.name in d.repos.All() then Some(RepoEntry(d.repos.All()[id.name])) else None
    case _ => None
  }

  function Ids(kind: Kind, names: set<string>): (s: set<NodeID>)
    ensures forall id :: id in s <==> id.kind == kind && id.name in names
  {
    set n | n in names :: NodeID(kind, n)
  }

  /** The three maps as one, by identity. */
  function View(d: StateData): (s: Snapshot)
    ensures forall id :: Get(s, id) == EntryOf(d, id)
  {
    map id | id in Ids(KindTool, d.tools.All().Keys) + Ids(KindRuntime, d.runtimes.All().Keys) +
                   Ids(KindInstallerRepository, d.repos.All().Keys) :: EntryOf(d, id).value
  }

  lemma ViewWellTyped(d: StateData)
    ensures WellTyped(View(d))
  {
  }

  lemma ViewIs(d: StateData, s: Snapshot)
    requires forall id :: Get(s, id) == EntryOf(d, id)
    ensures View(d) == s
  {
    SameLookups(View(d), s);
  }

  /** What the three accessors write, seen by identity. */
  lemma ViewWithTool(d: StateData, name: string, t: ToolState)
    requires d.tools.MadeMap?
    ensures View(d.(tools := d.tools.With(name, t))) == View(d)[NodeID(KindTool, name) := ToolEntry(t)]
  {
  }

  lemma ViewWithRuntime(d: StateData, name: string, r: RuntimeState)
    requires d.runtimes.MadeMap?
    ensures View(d.(runtimes := d.runtimes.With(name, r))) == View(d)[NodeID(KindRuntime, name) := RuntimeEntry(r)]
  {
  }

  lemma ViewWithRepo(d: StateData, name: string, p: RepoState)
    requires d.repos.MadeMap?
    ensures View(d.(repos := d.repos.With(name, p))) == View(d)[NodeID(KindInstallerRepository, name) := RepoEntry(p)]
  {
  }

  function WithoutEntry(d: StateData, kind: Kind, name: string): StateData {
    match kind
    case KindTool => d.(tools := d.tools.Without(name))
    case KindRuntime => d.(runtimes := d.runtimes.Without(name))
    case KindInstallerRepository => d.(repos := d.repos.Without(name))
    case _ => d
  }

  lemma ViewWithout(d: StateData, kind: Kind, name: string)
    ensures View(WithoutEntry(d, kind, name)) == View(d) - {NodeID(kind, name)}
  {
    ViewIs(WithoutEntry(d, kind, name), View(d) - {NodeID(kind, name)});
  }

  /** Making a nil map, or dropping an empty one from the file, changes nothing a reader sees. */
  lemma SameView(d: StateData, e: StateData)
    requires d.tools.All() == e.tools.All() && d.runtimes.All() == e.runtimes.All() && d.repos.All() == e.repos.All()
    ensures View(d) == View(e)
  {
  }

  // ----- Objects -----------------------------------------------------------------------------

  /** The in-memory state. The engine keeps a reference to it besides the cache's own. */
  class UserState {
    var data: StateData

    function Entries(): Snapshot
      reads this
    {
      View(data)
    }

    constructor (d: StateData)
      ensures data == d
    {
      data := d;
    }

    /** The map accessors. The entry always has the accessor's own type. */
    function Lookup(kind: Kind, name: string): Option<Entry>
      reads this
      ensures Lookup(kind, name) == Get(Entries(), NodeID(kind, name))
    {
      EntryOf(data, NodeID(kind, name))
    }

    /** The entries of one kind, by name. */
    function OfKind(kind: Kind): (m: map<string, Entry>)
      reads this
      ensures forall n :: Get(m, n) == Get(Entries(), NodeID(kind, n))
    {
      match kind
      case KindTool => map n | n in data.tools.All() :: ToolEntry(data.tools.All()[n])
      case KindRuntime => map n | n in data.runtimes.All() :: RuntimeEntry(data.runtimes.All()[n])
      case KindInstallerRepository => map n | n in data.repos.All() :: RepoEntry(data.repos.All()[n])
      case _ => map[]
    }

    method Assign(kind: Kind, name: string, e: Entry)
      requires e.Fits(kind)
      modifies this
      ensures Entries() == old(Entries())[NodeID(kind, name) := e]
    {
      ghost var d := data;
      match e {
        case ToolEntry(t) =>
          if data.tools.NilMap? { data := data.(tools := MadeMap(map[])); }
          SameView(d, data);
          ViewWithTool(data, name, t);
          data := data.(tools := data.tools.With(name, t));
        case RuntimeEntry(r) =>
          if data.runtimes.NilMap? { data := data.(runtimes := MadeMap(map[])); }
          SameView(d, data);
          ViewWithRuntime(data, name, r);
          data := data.(runtimes := data.runtimes.With(name, r));
        case RepoEntry(p) =>
          if data.repos.NilMap? { data := data.(repos := MadeMap(map[])); }
          SameView(d, data);
          ViewWithRepo(data, name, p);
          data := data.(repos := data.repos.With(name, p));
      }
    }

    method Remove(kind: Kind, name: string)
      modifies this
      ensures Entries() == old(Entries()) - {NodeID(kind, name)}
    {
      ViewWithout(data, kind, name);
      data := WithoutEntry(data, kind, name);
    }
  }

  /** What the file holds for a state. */
  function Encode(d: StateData): StateData {
    StateData(d.tools.Persisted(), d.runtimes.Persisted(), d.repos.Persisted())
  }

  lemma EncodeFaithful(d: StateData)
    ensures View(Encode(d)) == View(d)
    ensures Encode(d).tools != MadeMap(map[]) && Encode(d).runtimes != MadeMap(map[])
    ensures Encode(d).repos != MadeMap(map[])
  {
  }

  /** The state file behind a lock. A failed save leaves the file as it was (temporary file, then rename). */
  class Store {
    var file: Option<StateData>
    var locked: bool
    /** Every content the file ever had, in order. */
    ghost var writes: seq<Snapshot>
    /** How many operations have failed. */
    ghost var faults: nat

    ghost function Disk(): Snapshot
      reads this`file
    {
      if file.None? then map[] else View(file.value)
    }

    constructor (file: Option<StateData>)
      ensures !locked && this.file == file && writes == [] && faults == 0
    {
      this.file, locked, writes, faults := file, false, [], 0;
    }

    /** Fails when another process holds the lock. */
    method Lock() returns (ok: bool)
      modifies this`locked, this`faults
      ensures ok ==> locked && faults == old(faults)
      ensures !ok ==> !locked && faults == old(faults) + 1
      ensures old(locked) ==> ok
    {
      if locked {
        return true;
      }
      ok := *;
      if ok {
        locked := true;
      } else {
        faults := faults + 1;
      }
    }

    method Unlock() returns (ok: bool)
      modifies this`locked, this`faults
      ensures if ok then !locked && faults == old(faults) else locked && faults == old(faults) + 1
      ensures !old(locked) ==> ok
    {
      if !locked {
        return true;
      }
      ok := *;
      if ok {
        locked := false;
      } else {
        faults := faults + 1;
      }
    }

    /** A missing file reads as the empty state; reading or decoding may fail. */
    method Load() returns (r: Option<UserState>)
      modifies this`faults
      ensures r.Some? ==> locked && fresh(r.value) && r.value.Entries() == Disk() && faults == old(faults)
      ensures r.None? ==> faults == old(faults) + 1 || (!locked && faults == old(faults))
    {
      if !locked {
        return None;
      }
      var broken: bool := *;
      if broken {
        faults := faults + 1;
        return None;
      }
      var d := if file.None? then StateData(NilMap, NilMap, NilMap) else file.value;
      var st := new UserState(d);
      ViewIs(StateData(NilMap, NilMap, NilMap), map[]);
      r := Some(st);
    }

    method Save(st: UserState) returns (ok: bool)
      modifies this`file, this`writes, this`faults
      ensures ok ==> locked && Disk() == st.Entries() && writes == old(writes) + [st.Entries()] && faults == old(faults)
      ensures !ok ==> file == old(file) && writes == old(writes)
      ensures !ok ==> faults == old(faults) + 1 || (!locked && faults == old(faults))
    {
      if !locked {
        return false;
      }
      ok := *;
      if ok {
        EncodeFaithful(st.data);
        file := Some(Encode(st.data));
        writes := writes + [st.Entries()];
      } else {
        faults := faults + 1;
      }
    }
  }

  /** The whole state in memory, written back when it is flushed. */
  class StateCache {
    const store: Store
    var cache: UserState?
    var dirty: bool
    /** Every content the cache had after Init or after an operation. */
    ghost var history: seq<Snapshot>
    /** How many contents the file had had when Init was called. */
    ghost var start: nat

    function Now(): Snapshot
      requires cache != null
      reads this`cache, cache
    {
      cache.Entries()
    }

    /** Enough for an operation: the file only ever held contents the cache had had. */
    ghost predicate Usable()
      reads this, store`file, store`writes, cache
    {
      && cache != null
      && start <= |store.writes|
      && store.Disk() in history
      && forall i :: start <= i < |store.writes| ==> store.writes[i] in history
    }

    /** Between operations: a clean cache agrees with the file, and what the cache holds is on record. */
    ghost predicate Valid()
      reads this, store`file, store`writes, cache
      ensures Valid() ==> Usable() && cache != null
    {
      && Usable()
      && Now() in history
      && (!dirty ==> store.Disk() == Now())
    }

    constructor (store: Store)
      ensures this.store == store && cache == null && !dirty
    {
      this.store, cache, dirty, history, start := store, null, false, [], 0;
    }

    /** Called right after the state was saved, so the file and the cache agree. */
    method Init(st: UserState)
      requires store.Disk() == st.Entries()
      modifies this
      ensures cache == st && !dirty && Valid() && history == [st.Entries()] && start == |store.writes|
    {
      cache, dirty := st, false;
      history, start := [st.Entries()], |store.writes|;
    }

    /** On failure the file is untouched and the cache stays dirty, so a later flush writes it. */
    method Flush() returns (ok: bool)
      requires Valid()
      modifies this`dirty, store`file, store`writes, store`faults
      ensures Valid()
      ensures ok ==> !dirty && store.Disk() == Now() && store.faults == old(store.faults)
      ensures !ok ==> dirty && store.Disk() == old(store.Disk()) && store.writes == old(store.writes)
      ensures !ok ==> store.faults == old(store.faults) + 1 || (!store.locked && store.faults == old(store.faults))
      ensures store.writes == old(store.writes) || store.writes == old(store.writes) + [Now()]
    {
      if !dirty {
        return true;
      }
      ok := store.Save(cache);
      if ok {
        dirty := false;
      }
    }

    /** The cache's own object, not a copy. */
    method Snapshot() returns (st: UserState)
      requires cache != null
      ensures st == cache
    {
      st := cache;
    }

    method MarkDirty()
      requires cache != null
      modifies this`dirty, this`history
      ensures dirty && history == old(history) + [Now()]
    {
      dirty := true;
      history := history + [Now()];
    }
  }

  /** A store for one kind of resource on top of the cache. */
  class CachedStore {
    const cache: StateCache
    const kind: Kind

    constructor (cache: StateCache, kind: Kind)
      ensures this.cache == cache && this.kind == kind
    {
      this.cache, this.kind := cache, kind;
    }

    method Load(name: string) returns (r: Option<Entry>)
      requires cache.cache != null
      ensures r == Get(cache.Now(), NodeID(kind, name)) && (r.Some? ==> r.value.Fits(kind))
    {
      r := cache.cache.Lookup(kind, name);
    }

    /** Also repairs the record after an entry was changed in place through Snapshot. */
    method Save(name: string, e: Entry)
      requires cache.Usable() && e.Fits(kind)
      modifies cache.cache, cache`dirty, cache`history
      ensures cache.Valid() && cache.dirty
      ensures cache.Now() == old(cache.Now())[NodeID(kind, name) := e]
      ensures cache.history == old(cache.history) + [cache.Now()]
    {
      cache.cache.Assign(kind, name, e);
      cache.MarkDirty();
    }

    method Delete(name: string)
      requires cache.Valid()
      modifies cache.cache, cache`dirty, cache`history
      ensures cache.Valid() && cache.dirty
      ensures cache.Now() == old(cache.Now()) - {NodeID(kind, name)}
      ensures cache.history == old(cache.history) + [cache.Now()]
    {
      cache.cache.Remove(kind, name);
      cache.MarkDirty();
    }
  }
}
