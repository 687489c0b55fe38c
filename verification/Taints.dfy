/** Marking entries so that the next reconciliation installs them again. */
module Taints {
  import opened Prelude
  import opened Resources
  import opened StateStore
  import opened Execution
  import opened Nodes
  import Grouping

  datatype UpdateConfig = UpdateConfig(sync: bool, updateTools: bool, updateRuntimes: bool)

  const NoUpdates := UpdateConfig(false, false, false)

  function Marked(e: Entry, reason: string): (m: Entry)
    ensures forall k :: m.Fits(k) <==> e.Fits(k)
  {
    match e
    case ToolEntry(t) => ToolEntry(t.(taintReason := reason))
    case RuntimeEntry(r) => RuntimeEntry(r.(taintReason := reason))
    case RepoEntry(_) => e
  }

  // ----- Update flags -------------------------------------------------------------------------

  predicate NonExact(k: VersionKind) {
    k.VersionLatest? || k.VersionAlias?
  }

  /** What the flags make of one entry; a requested update hides the reason of a sync. */
  function Flagged(cfg: UpdateConfig, e: Entry): Entry {
    match e
    case ToolEntry(t) =>
      if cfg.updateTools && NonExact(t.versionKind) then Marked(e, "update_requested")
      else if cfg.sync && t.versionKind.VersionLatest? then Marked(e, "sync_update")
      else e
    case RuntimeEntry(r) => if cfg.updateRuntimes && NonExact(r.versionKind) then Marked(e, "update_requested") else e
    case RepoEntry(_) => e
  }

  function FlagTaints(cfg: UpdateConfig, s: Snapshot): Snapshot {
    map id | id in s :: Flagged(cfg, s[id])
  }

  lemma FlagsKeepTypes(cfg: UpdateConfig, s: Snapshot)
    requires WellTyped(s)
    ensures WellTyped(FlagTaints(cfg, s)) && (cfg == NoUpdates ==> FlagTaints(cfg, s) == s)
  {
  }

  /** A flagged entry is stale whatever the manifest asks for; any other entry is as before. */
  lemma FlaggedIsStale(cfg: UpdateConfig, res: Resource, e: Entry)
    requires e.Fits(res.Kind())
    ensures Stale(res, Flagged(cfg, e)) <==> Stale(res, e) || Flagged(cfg, e).Tainted()
  {
  }

  ghost predicate MarkedWhere(matches: Entry -> bool, reason: string, todo: set<string>, before: Snapshot,
                              after: Snapshot)
  {
    forall id :: Get(after, id) ==
      if id in before && matches(before[id]) &&
        id.name !in todo then Some(Marked(before[id], reason)) else Get(before, id)
  }

  /** Names are visited one by one; a matching entry is always of the visited kind. */
  lemma MarkedOneMore(kind: Kind, matches: Entry -> bool, reason: string, todo: set<string>, before: Snapshot,
                      now: Snapshot, n: string)
    requires MarkedWhere(matches, reason, todo, before, now) && n in todo && NodeID(kind, n) in before
    requires WellTyped(before) && forall e :: matches(e) ==> e.Fits(kind)
    ensures var id := NodeID(kind, n);
            && Get(now, id) == Some(before[id])
            && MarkedWhere(matches, reason, todo - {n}, before, if matches(before[id])
                           then now[id := Marked(before[id], reason)] else now)
  {
  }

  /** Marks the matching entries of one kind, in place and in an arbitrary order. */
  method TaintMatching(st: UserState, kind: Kind, matches: Entry -> bool, reason: string)
    requires forall e :: matches(e) ==> e.Fits(kind)
    modifies st
    ensures MarkedWhere(matches, reason, {}, old(st.Entries()), st.Entries())
  {
    hide View, EntryOf, MarkedWhere;
    ghost var before := st.Entries();
    ViewWellTyped(st.data);
    var todo := st.OfKind(kind).Keys;
    ghost var seen := todo;
    AllTodo(st, kind, matches, reason);
    while todo != {}
      invariant todo <= seen && forall n :: n in seen ==> NodeID(kind, n) in before
      invariant MarkedWhere(matches, reason, todo, before, st.Entries())
    {
      var n :| n in todo;
      MarkedOneMore(kind, matches, reason, todo, before, st.Entries(), n);
      var e := st.Lookup(kind, n).value;
      todo := todo - {n};
      if matches(e) {
        st.Assign(kind, n, Marked(e, reason));
      }
    }
  }

  lemma AllTodo(st: UserState, kind: Kind, matches: Entry -> bool, reason: string)
    requires forall e :: matches(e) ==> e.Fits(kind)
    ensures forall n :: n in st.OfKind(kind) <==> NodeID(kind, n) in st.Entries()
    ensures MarkedWhere(matches, reason, st.OfKind(kind).Keys, st.Entries(), st.Entries())
  {
  }

  method ApplyUpdateTaints(st: UserState, cfg: UpdateConfig)
    modifies st
    ensures st.Entries() == FlagTaints(cfg, old(st.Entries()))
  {
    hide View, EntryOf;
    ghost var before := st.Entries();
    if cfg.sync {
      TaintMatching(st, KindTool, (e: Entry) => e.ToolEntry? && e.tool.versionKind.VersionLatest?, "sync_update");
    }
    if cfg.updateTools {
      TaintMatching(st, KindTool, (e: Entry) => e.ToolEntry? && NonExact(e.tool.versionKind), "update_requested");
    }
    if cfg.updateRuntimes {
      TaintMatching(st, KindRuntime, (e: Entry) => e.RuntimeEntry? && NonExact(e.runtime.versionKind),
                    "update_requested");
    }
    SameLookups(st.Entries(), FlagTaints(cfg, before));
  }

  // ----- Tools of upgraded runtimes -------------------------------------------------------------

  /** A tool entry whose recorded runtime was upgraded and asks for its tools to follow. */
  predicate ShouldTaint(s: Snapshot, updated: set<NodeID>, id: NodeID) {
    && id.kind == KindTool && id in s && s[id].ToolEntry?
    && s[id].tool.runtimeRef != ""
    && var r := NodeID(KindRuntime, s[id].tool.runtimeRef);
       r in updated && r in s && s[r].RuntimeEntry? && s[r].runtime.taintOnUpgrade
  }

  function TaintedBy(s: Snapshot, updated: set<NodeID>): Snapshot {
    map id | id in s :: if ShouldTaint(s, updated, id) then Marked(s[id], "runtime_upgraded") else s[id]
  }

  /** Every wanted entry is there and needs no update: what a complete execution of the graph leaves. */
  ghost predicate Current(want: map<NodeID, Resource>, s: Snapshot) {
    forall id :: id in want && Managed(id.kind) ==> id in s && s[id].Fits(id.kind) && !Stale(want[id], s[id])
  }

  /** After tainting exactly the tainted tools need an update. */
  lemma TaintedIsStale(want: map<NodeID, Resource>, s: Snapshot, updated: set<NodeID>, id: NodeID)
    requires Grouping.Indexed(want) && Current(want, s) && id in want && Managed(id.kind)
    ensures var t := TaintedBy(s, updated);
            id in t && (Stale(want[id], t[id]) <==> ShouldTaint(s, updated, id))
  {
  }

  /** The dependents marked so far. */
  ghost predicate TaintedSoFar(s: Snapshot, updated: set<NodeID>, todo: set<string>, now: Snapshot) {
    forall id :: Get(now, id) ==
      if ShouldTaint(s, updated, id) && id.name !in todo then Some(Marked(s[id], "runtime_upgraded")) else Get(s, id)
  }

  lemma TaintedNone(s: Snapshot, updated: set<NodeID>, todo: set<string>)
    requires forall id :: id in s && id.kind == KindTool ==> id.name in todo
    ensures TaintedSoFar(s, updated, todo, s)
  {
  }

  lemma TaintedAll(s: Snapshot, updated: set<NodeID>, now: Snapshot)
    requires TaintedSoFar(s, updated, {}, now)
    ensures now == TaintedBy(s, updated)
  {
    SameLookups(now, TaintedBy(s, updated));
  }

  /** Marking one more tool does not change whether another one should be marked. */
  lemma TaintedOneMore(s: Snapshot, updated: set<NodeID>, todo: set<string>, now: Snapshot, n: string)
    requires TaintedSoFar(s, updated, todo, now) && n in todo
    ensures var id := NodeID(KindTool, n);
            TaintedSoFar(s, updated, todo - {n}, if ShouldTaint(now, updated, id)
                         then now[id := Marked(now[id], "runtime_upgraded")] else now)
  {
  }

  /** Marks the dependents in the cache's own object, then saves each: between the two the cache differs from
      what it has on record, and the save repairs that. */
  method TaintDependents(st: UserState, x: Executor, updated: set<NodeID>)
    requires x.Wired() && x.sc.Valid() && st == x.sc.cache
    modifies x.sc.cache, x.sc`dirty, x.sc`history
    ensures x.sc.Valid() && x.sc.Now() == TaintedBy(old(x.sc.Now()), updated)
  {
    hide View, EntryOf, StateCache.Valid, StateCache.Usable, ShouldTaint, TaintedSoFar, TaintedBy, Marked;
    ghost var s := x.sc.Now();
    var todo := st.OfKind(KindTool).Keys;
    assert forall id :: id in s && id.kind == KindTool ==> id.name in todo by {
      assert forall id: NodeID :: Get(st.OfKind(id.kind), id.name) == Get(s, id);
    }
    TaintedNone(s, updated, todo);
    while todo != {}
      invariant x.sc.Valid() && TaintedSoFar(s, updated, todo, x.sc.Now())
    {
      var n :| n in todo;
      TaintedOneMore(s, updated, todo, x.sc.Now(), n);
      todo := todo - {n};
      TaintOne(st, x, updated, n);
    }
    TaintedAll(s, updated, x.sc.Now());
  }

  method TaintOne(st: UserState, x: Executor, updated: set<NodeID>, n: string)
    requires x.Wired() && x.sc.Valid() && st == x.sc.cache
    modifies x.sc.cache, x.sc`dirty, x.sc`history
    ensures x.sc.Valid()
    ensures var id, s := NodeID(KindTool, n), old(x.sc.Now());
            x.sc.Now() == if ShouldTaint(s, updated, id) then s[id := Marked(s[id], "runtime_upgraded")] else s
  {
    hide View, EntryOf;
    ghost var s := x.sc.Now();
    var cur := st.Lookup(KindTool, n);
    if cur.None? || !cur.value.ToolEntry? || cur.value.tool.runtimeRef == ""
       || NodeID(KindRuntime, cur.value.tool.runtimeRef) !in updated {
      return;
    }
    var runtime := st.Lookup(KindRuntime, cur.value.tool.runtimeRef);
    if runtime.None? || !runtime.value.RuntimeEntry? || !runtime.value.runtime.taintOnUpgrade {
      return;
    }
    var tainted := Marked(cur.value, "runtime_upgraded");
    st.Assign(KindTool, n, tainted);
    assert x.sc.Usable();
    x.toolStore.Save(n, tainted);
    assert x.sc.Now() == s[NodeID(KindTool, n) := tainted];
  }

  // ----- The marks in the fields of the records -----------------------------------------------------

  /** An entry with another reason for installing it again, and nothing else changed. */
  ghost predicate OnlyMarked(before: Entry, reason: string, after: Entry) {
    match before
    case ToolEntry(t) => after == ToolEntry(t.(taintReason := reason))
    case RuntimeEntry(r) => after == RuntimeEntry(r.(taintReason := reason))
    case RepoEntry(_) => after == before
  }

  /** The flags ask for tools of both open kinds of version, or in a sync for the latest ones only, and for runtimes of
      both; a requested update gives its own reason, everything else stays as it is. */
  lemma FlagsMean(cfg: UpdateConfig, s: Snapshot, id: NodeID)
    requires id in s
    ensures id in FlagTaints(cfg, s) && FlagTaints(cfg, s).Keys == s.Keys
    ensures var e := FlagTaints(cfg, s)[id];
            match s[id]
            case ToolEntry(t) =>
              if cfg.updateTools && t.versionKind in {VersionLatest, VersionAlias} then
                OnlyMarked(s[id], "update_requested", e)
              else if cfg.sync && t.versionKind == VersionLatest then OnlyMarked(s[id], "sync_update", e)
              else e == s[id]
            case RuntimeEntry(r) =>
              if cfg.updateRuntimes && r.versionKind in {VersionLatest, VersionAlias} then
                OnlyMarked(s[id], "update_requested", e)
              else e == s[id]
            case RepoEntry(_) => e == s[id]
  {
  }

  /** So an unmarked tool is marked by the flags if and only if they ask for it; likewise a runtime. */
  lemma FlagsReach(cfg: UpdateConfig, s: Snapshot, id: NodeID)
    requires id in s && !s[id].RepoEntry?
    requires if s[id].ToolEntry? then s[id].tool.taintReason == "" else s[id].runtime.taintReason == ""
    ensures var e := FlagTaints(cfg, s)[id];
            match s[id]
            case ToolEntry(t) =>
              e.ToolEntry? && (e.Tainted() <==> e.tool.taintReason != "") &&
              (e.tool.taintReason != "" <==>
               (cfg.updateTools && t.versionKind in {VersionLatest, VersionAlias}) ||
               (cfg.sync && t.versionKind == VersionLatest))
            case RuntimeEntry(r) =>
              e.RuntimeEntry? && (e.Tainted() <==> e.runtime.taintReason != "") &&
              (e.runtime.taintReason != "" <==> cfg.updateRuntimes && r.versionKind in {VersionLatest, VersionAlias})
            case RepoEntry(_) => false
  {
    hide FlagTaints;
    FlagsMean(cfg, s, id);
  }
}
