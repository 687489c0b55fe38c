/** The parallel part of a layer as a step system: a main goroutine that launches workers under a counting
    semaphore, download workers (one node each, the slot is taken before the launch) and delegation
    workers (a group of nodes run one after another, a slot taken for each). Any enabled step may come next. */
module Scheduler {
  import opened Prelude
  import opened Resources

  /** What executing one node came to: nothing to do, an action done, or an action that failed. */
  datatype Report = Quiet | Did(act: ActionType, entry: Entry, bumped: bool) | Broke(act: ActionType)

  /** The run's log: a node's execution begins, takes an action, ends. */
  datatype Event = Enter(id: NodeID) | Act(id: NodeID, act: ActionType) | Exit(id: NodeID, ok: bool)

  /** Some execution ended with an error. */
  ghost predicate Failure(log: seq<Event>) {
    exists id :: Exit(id, false) in log
  }

  /** work: one sequence of nodes a worker, the first nd of them downloads. run: the outcome of executing a
      node, given its own state entry; each node is executed at most once, so a function of the node covers
      every behaviour of its installer. */
  datatype Config = Config(work: seq<seq<NodeID>>, nd: nat, par: nat, run: (NodeID, Option<Entry>) -> Report)

  predicate Slot(c: Config, i: int, k: int) {
    0 <= i < |c.work| && 0 <= k < |c.work[i]|
  }

  function At(c: Config, i: int, k: int): NodeID
    requires Slot(c, i, k)
  {
    c.work[i][k]
  }

  ghost predicate Valid(c: Config) {
    && c.nd <= |c.work|
    && c.par >= 1
    && (forall i :: 0 <= i < |c.work| ==> |c.work[i]| >= 1)
    && (forall i :: 0 <= i < c.nd ==> |c.work[i]| == 1)
    && (forall i, k, j, l :: Slot(c, i, k) && Slot(c, j, l) && At(c, i, k) == At(c, j, l) ==> i == j && k == l)
  }

  ghost predicate Among(c: Config, id: NodeID) {
    exists i, k :: Slot(c, i, k) && At(c, i, k) == id
  }

  // ----- What has been done, worker by worker -------------------------------------------------

  /** The outcome of a node: nobody else touches its entry, so it is executed on the initial one. */
  function Outcome(c: Config, cache0: Snapshot, i: int, k: int): Report
    requires Slot(c, i, k)
  {
    c.run(At(c, i, k), Get(cache0, At(c, i, k)))
  }

  function Written(cache: Snapshot, id: NodeID, r: Report): Snapshot {
    if r.Did? then cache[id := r.entry] else cache
  }

  /** The shared accounts: bumped runtimes, nodes that acted, nodes that failed. */
  datatype Accounts = Accounts(updated: set<NodeID>, acted: set<NodeID>, failed: set<NodeID>)

  function Booked(a: Accounts, id: NodeID, r: Report): Accounts {
    match r
    case Quiet => a
    case Did(_, _, bumped) => a.(acted := a.acted + {id}, updated := if bumped then a.updated + {id} else a.updated)
    case Broke(_) => a.(failed := a.failed + {id})
  }

  /** Counts of nodes, one a worker. */
  ghost predicate Counts(c: Config, done: seq<nat>) {
    |done| == |c.work| && forall i :: 0 <= i < |done| ==> done[i] <= |c.work[i]|
  }

  ghost predicate CacheSpec(c: Config, cache0: Snapshot, done: seq<nat>, cache: Snapshot) {
    && Counts(c, done)
    && (forall i, k :: Slot(c, i, k) ==>
         Get(cache, At(c, i, k)) ==
         if k < done[i] && Outcome(c, cache0, i, k).Did? then Some(Outcome(c, cache0, i, k).entry)
         else Get(cache0, At(c, i, k)))
    && (forall id :: !Among(c, id) ==> Get(cache, id) == Get(cache0, id))
  }

  ghost predicate AccountSpec(c: Config, cache0: Snapshot, base: Accounts, done: seq<nat>, a: Accounts) {
    && Counts(c, done)
    && (forall i, k :: Slot(c, i, k) ==>
         var r := Outcome(c, cache0, i, k);
         && (At(c, i, k) in a.updated <==> At(c, i, k) in base.updated || (k < done[i] && r.Did? && r.bumped))
         && (At(c, i, k) in a.acted <==> At(c, i, k) in base.acted || (k < done[i] && r.Did?))
         && (At(c, i, k) in a.failed <==> At(c, i, k) in base.failed || (k < done[i] && r.Broke?)))
    && (forall id :: !Among(c, id) ==>
         && (id in a.updated <==> id in base.updated)
         && (id in a.acted <==> id in base.acted)
         && (id in a.failed <==> id in base.failed))
  }

  lemma WriteOne(c: Config, cache0: Snapshot, done: seq<nat>, cache: Snapshot, i: int)
    requires Valid(c) && CacheSpec(c, cache0, done, cache)
    requires 0 <= i < |done| && done[i] < |c.work[i]|
    ensures Get(cache, At(c, i, done[i])) == Get(cache0, At(c, i, done[i]))
    ensures CacheSpec(c, cache0, done[i := done[i] + 1],
                      Written(cache, At(c, i, done[i]), Outcome(c, cache0, i, done[i])))
  {
  }

  lemma BookOne(c: Config, cache0: Snapshot, base: Accounts, done: seq<nat>, a: Accounts, i: int)
    requires Valid(c) && AccountSpec(c, cache0, base, done, a)
    requires 0 <= i < |done| && done[i] < |c.work[i]|
    ensures AccountSpec(c, cache0, base, done[i := done[i] + 1],
                        Booked(a, At(c, i, done[i]), Outcome(c, cache0, i, done[i])))
  {
  }

  // ----- The step system ----------------------------------------------------------------------

  /** k is the position in the worker's group. A download publishes its result and then releases its slot,
      a group releases first. Stopped(n, ok): n nodes were executed and the last one failed unless ok. */
  datatype Worker =
    | Dormant
    | Idle(k: nat)
    | Holding(k: nat)
    | Loaded(k: nat, cur: Option<Entry>)
    | Executed(k: nat, rep: Report)
    | Published(k: nat, rep: Report)
    | Released(k: nat, rep: Report)
    | Stopped(n: nat, ok: bool)

  /** main: the next worker the launching loops look at; interrupted: an Acquire failed and its error is kept. */
  datatype State = State(
    main: nat, joined: bool, ws: seq<Worker>, held: nat, cancelled: bool, interrupted: bool,
    cache: Snapshot, accounts: Accounts, log: seq<Event>)

  datatype Step = Cancel | Main(ok: bool) | Work(i: nat, ok: bool)

  predicate Holds(w: Worker) {
    w.Holding? || w.Loaded? || w.Executed? || w.Published?
  }

  predicate AtRest(w: Worker) {
    w.Dormant? || w.Stopped?
  }

  function Init(c: Config, cache0: Snapshot, base: Accounts, cancelled: bool): State {
    State(0, false, seq(|c.work|, i => Dormant), 0, cancelled, false, cache0, base, [])
  }

  ghost predicate Shape(c: Config, s: State) {
    && |s.ws| == |c.work|
    && s.main <= |c.work|
    && (forall i :: 0 <= i < |s.ws| ==> WorkerShape(c, i, s.ws[i]))
    && (forall i :: s.main <= i < |s.ws| ==> s.ws[i].Dormant?)
    && (s.joined ==> s.main == |c.work| && forall i :: 0 <= i < |s.ws| ==> AtRest(s.ws[i]))
  }

  predicate WorkerShape(c: Config, i: nat, w: Worker)
    requires i < |c.work|
  {
    match w
    case Dormant => true
    case Idle(k) => c.nd <= i && k < |c.work[i]|
    case Holding(k) => k < |c.work[i]|
    case Loaded(k, _) => k < |c.work[i]|
    case Executed(k, _) => k < |c.work[i]|
    case Published(k, _) => i < c.nd && k < |c.work[i]|
    case Released(k, _) => c.nd <= i && k < |c.work[i]|
    case Stopped(n, ok) => n <= |c.work[i]|
  }

  /** ok selects how a blocking Acquire or a context check comes out: Acquire can succeed when a slot is
      free and can fail once the context is cancelled. */
  predicate Enabled(c: Config, s: State, t: Step)
    requires |s.ws| == |c.work|
  {
    match t
    case Cancel => !s.cancelled
    case Main(ok) =>
      if s.main < c.nd then (if ok then s.held < c.par else s.cancelled)
      else if s.main < |c.work| then ok == !s.cancelled
      else ok && !s.joined && forall i :: 0 <= i < |s.ws| ==> AtRest(s.ws[i])
    case Work(i, ok) =>
      && i < |s.ws|
      && match s.ws[i]
         case Dormant => false
         case Stopped(_, _) => false
         case Idle(_) => if ok then s.held < c.par else s.cancelled
         case _ => ok
  }

  function Do(c: Config, s: State, t: Step): State
    requires Valid(c) && Shape(c, s) && Enabled(c, s, t)
  {
    match t
    case Cancel => s.(cancelled := true)
    case Main(ok) =>
      if s.main < c.nd then
        if ok then
          s.(main := s.main + 1, ws := s.ws[s.main := Holding(0)], held := s.held + 1,
             log := s.log + [Enter(At(c, s.main, 0))])
        else s.(main := c.nd, interrupted := true)
      else if s.main < |c.work| then
        if ok then s.(main := s.main + 1, ws := s.ws[s.main := Idle(0)])
        else s.(main := |c.work|)
      else s.(joined := true)
    case Work(i, ok) => DoWork(c, s, i, ok)
  }

  function DoWork(c: Config, s: State, i: nat, ok: bool): State
    requires Valid(c) && Shape(c, s) && Enabled(c, s, Work(i, ok))
  {
    match s.ws[i]
    case Idle(k) =>
      if ok then s.(ws := s.ws[i := Holding(k)], held := s.held + 1, log := s.log + [Enter(At(c, i, k))])
      else s.(ws := s.ws[i := Stopped(k, true)], interrupted := true)
    case Holding(k) => s.(ws := s.ws[i := Loaded(k, Get(s.cache, At(c, i, k)))])
    case Loaded(k, cur) =>
      var r := c.run(At(c, i, k), cur);
      s.(ws := s.ws[i := Executed(k, r)], cache := Written(s.cache, At(c, i, k), r),
         log := s.log + Trace(At(c, i, k), r))
    case Executed(k, r) =>
      if i < c.nd then s.(ws := s.ws[i := Published(k, r)], accounts := Booked(s.accounts, At(c, i, k), r))
      else s.(ws := s.ws[i := Released(k, r)], held := Less(s.held))
    case Published(k, r) => s.(ws := s.ws[i := Stopped(k + 1, !r.Broke?)], held := Less(s.held))
    case Released(k, r) =>
      s.(ws := s.ws[i := if r.Broke? || k + 1 == |c.work[i]| then Stopped(k + 1, !r.Broke?) else Idle(k + 1)],
         accounts := Booked(s.accounts, At(c, i, k), r))
  }

  function Less(n: nat): nat {
    if n == 0 then 0 else n - 1
  }

  function Trace(id: NodeID, r: Report): seq<Event> {
    (if r.Quiet? then [] else [Act(id, r.act)]) + [Exit(id, !r.Broke?)]
  }

  lemma ShapeKept(c: Config, s: State, t: Step)
    requires Valid(c) && Shape(c, s) && Enabled(c, s, t)
    ensures Shape(c, Do(c, s, t))
  {
  }

  // ----- The semaphore ------------------------------------------------------------------------

  function Holders(ws: seq<Worker>): set<nat> {
    set i: nat | i < |ws| && Holds(ws[i])
  }

  ghost predicate Semaphore(c: Config, s: State) {
    s.held == |Holders(s.ws)| && s.held <= c.par
  }

  lemma HoldersUpdate(ws: seq<Worker>, i: nat, w: Worker)
    requires i < |ws|
    ensures |Holders(ws[i := w])| == |Holders(ws)| - (if Holds(ws[i]) then 1 else 0) + (if Holds(w) then 1 else 0)
  {
    var rest := Holders(ws) - {i};
    assert Holders(ws) == if Holds(ws[i]) then rest + {i} else rest;
    assert Holders(ws[i := w]) == if Holds(w) then rest + {i} else rest;
  }

  lemma SemaphoreKept(c: Config, s: State, t: Step)
    requires Valid(c) && Shape(c, s) && Enabled(c, s, t) && Semaphore(c, s)
    ensures Semaphore(c, Do(c, s, t))
  {
    var s' := Do(c, s, t);
    if t.Work? {
      HoldersUpdate(s.ws, t.i, s'.ws[t.i]);
      assert s'.ws == s.ws[t.i := s'.ws[t.i]];
    } else if t.Main? && s.main < |c.work| && t.ok {
      HoldersUpdate(s.ws, s.main, s'.ws[s.main]);
      assert s'.ws == s.ws[s.main := s'.ws[s.main]];
    }
  }

  // ----- What every step keeps ----------------------------------------------------------------

  /** Nodes of a worker that began, whose state was written, whose result was booked, that did not fail. */
  function Began(w: Worker): nat {
    match w
    case Dormant => 0
    case Idle(k) => k
    case Stopped(n, _) => n
    case _ => w.k + 1
  }

  function Done(w: Worker): nat {
    match w
    case Dormant => 0
    case Stopped(n, _) => n
    case Executed(k, _) => k + 1
    case Published(k, _) => k + 1
    case Released(k, _) => k + 1
    case _ => w.k
  }

  function Posted(w: Worker): nat {
    match w
    case Dormant => 0
    case Stopped(n, _) => n
    case Published(k, _) => k + 1
    case _ => w.k
  }

  function Clean(w: Worker): nat {
    match w
    case Dormant => 0
    case Stopped(n, ok) => if ok || n == 0 then n else n - 1
    case _ => w.k
  }

  function BeganAll(ws: seq<Worker>): seq<nat> { seq(|ws|, i requires 0 <= i < |ws| => Began(ws[i])) }
  function DoneAll(ws: seq<Worker>): seq<nat> { seq(|ws|, i requires 0 <= i < |ws| => Done(ws[i])) }
  function PostedAll(ws: seq<Worker>): seq<nat> { seq(|ws|, i requires 0 <= i < |ws| => Posted(ws[i])) }

  lemma CountsUpdate(c: Config, ws: seq<Worker>, i: nat, w: Worker)
    requires i < |ws| == |c.work|
    requires (forall j :: 0 <= j < |ws| ==> WorkerShape(c, j, ws[j])) && WorkerShape(c, i, w)
    ensures Counts(c, BeganAll(ws)) && Counts(c, DoneAll(ws)) && Counts(c, PostedAll(ws))
    ensures BeganAll(ws[i := w]) == BeganAll(ws)[i := Began(w)]
    ensures DoneAll(ws[i := w]) == DoneAll(ws)[i := Done(w)]
    ensures PostedAll(ws[i := w]) == PostedAll(ws)[i := Posted(w)]
  {
  }

  lemma CountsOk(c: Config, s: State)
    requires Shape(c, s)
    ensures Counts(c, BeganAll(s.ws)) && Counts(c, DoneAll(s.ws)) && Counts(c, PostedAll(s.ws))
  {
  }

  ghost predicate WorkerData(c: Config, cache0: Snapshot, i: nat, w: Worker)
    requires i < |c.work| && WorkerShape(c, i, w)
  {
    && (forall j :: 0 <= j < Clean(w) && Slot(c, i, j) ==> !Outcome(c, cache0, i, j).Broke?)
    && match w
       case Loaded(k, cur) => cur == Get(cache0, At(c, i, k))
       case Executed(k, r) => r == Outcome(c, cache0, i, k)
       case Published(k, r) => r == Outcome(c, cache0, i, k)
       case Released(k, r) => r == Outcome(c, cache0, i, k)
       case Stopped(n, ok) => !ok ==> n >= 1 && Outcome(c, cache0, i, n - 1).Broke?
       case _ => true
  }

  ghost predicate Data(c: Config, cache0: Snapshot, base: Accounts, s: State)
    requires Shape(c, s)
  {
    && (forall i :: 0 <= i < |s.ws| ==> WorkerData(c, cache0, i, s.ws[i]))
    && CacheSpec(c, cache0, DoneAll(s.ws), s.cache)
    && AccountSpec(c, cache0, base, PostedAll(s.ws), s.accounts)
  }

  lemma DataKept(c: Config, cache0: Snapshot, base: Accounts, s: State, t: Step)
    requires Valid(c) && Shape(c, s) && Enabled(c, s, t) && Data(c, cache0, base, s)
    ensures Shape(c, Do(c, s, t)) && Data(c, cache0, base, Do(c, s, t))
  {
    ShapeKept(c, s, t);
    CountsOk(c, s);
    var s' := Do(c, s, t);
    CountsOk(c, s');
    if t.Work? {
      DataKeptByWorker(c, cache0, base, s, t.i, t.ok);
    } else if t.Main? && s.main < |c.work| && t.ok {
      CountsUpdate(c, s.ws, s.main, s'.ws[s.main]);
      assert DoneAll(s'.ws) == DoneAll(s.ws) && PostedAll(s'.ws) == PostedAll(s.ws);
    }
  }

  lemma DataKeptByWorker(c: Config, cache0: Snapshot, base: Accounts, s: State, i: nat, ok: bool)
    requires Valid(c) && Shape(c, s) && Enabled(c, s, Work(i, ok)) && Data(c, cache0, base, s)
    requires Shape(c, Do(c, s, Work(i, ok)))
    ensures Data(c, cache0, base, Do(c, s, Work(i, ok)))
  {
    var w, s' := s.ws[i], DoWork(c, s, i, ok);
    var w' := s'.ws[i];
    WorkerEffects(c, s, i, ok);
    assert WorkerData(c, cache0, i, w);
    DoneGrows(c, cache0, s.ws, s.cache, i, w', s'.cache);
    PostedGrows(c, cache0, base, s.ws, s.accounts, i, w', s'.accounts);
    WorkerDataKept(c, cache0, s, i, ok);
  }

  /** What one worker step does, seen from the counts: it writes one more entry, or books one more result,
      or neither. */
  lemma WorkerEffects(c: Config, s: State, i: nat, ok: bool)
    requires Valid(c) && Shape(c, s) && Enabled(c, s, Work(i, ok))
    ensures var w, s' := s.ws[i], DoWork(c, s, i, ok);
            && s'.ws == s.ws[i := s'.ws[i]]
            && WorkerShape(c, i, s'.ws[i])
            && (if w.Loaded? then Done(s'.ws[i]) == w.k + 1 &&
                s'.cache == Written(s.cache, At(c, i, w.k), c.run(At(c, i, w.k), w.cur))
                else Done(s'.ws[i]) == Done(w) && s'.cache == s.cache)
            && (if w.Released? || (w.Executed? && i < c.nd)
                then Posted(s'.ws[i]) == w.k + 1 && s'.accounts == Booked(s.accounts, At(c, i, w.k), w.rep)
                else Posted(s'.ws[i]) == Posted(w) && s'.accounts == s.accounts)
  {
    assert WorkerShape(c, i, s.ws[i]);
    hide Shape, Valid;
  }

  lemma DoneGrows(c: Config, cache0: Snapshot, ws: seq<Worker>, cache: Snapshot, i: nat, w': Worker, cache': Snapshot)
    requires Valid(c) && i < |ws| == |c.work|
    requires (forall j :: 0 <= j < |ws| ==> WorkerShape(c, j, ws[j])) && WorkerShape(c, i, w')
    requires WorkerData(c, cache0, i, ws[i])
    requires CacheSpec(c, cache0, DoneAll(ws), cache)
    requires if ws[i].Loaded? then Done(w') == ws[i].k + 1 &&
      cache' == Written(cache, At(c, i, ws[i].k), c.run(At(c, i, ws[i].k), ws[i].cur))
             else Done(w') == Done(ws[i]) && cache' == cache
    ensures CacheSpec(c, cache0, DoneAll(ws[i := w']), cache')
  {
  }

  lemma PostedGrows(c: Config, cache0: Snapshot, base: Accounts, ws: seq<Worker>, a: Accounts, i: nat, w': Worker,
                    a': Accounts)
    requires Valid(c) && i < |ws| == |c.work|
    requires (forall j :: 0 <= j < |ws| ==> WorkerShape(c, j, ws[j])) && WorkerShape(c, i, w')
    requires WorkerData(c, cache0, i, ws[i])
    requires AccountSpec(c, cache0, base, PostedAll(ws), a)
    requires if ws[i].Released? || (ws[i].Executed? && i < c.nd)
             then Posted(w') == ws[i].k + 1 && a' == Booked(a, At(c, i, ws[i].k), ws[i].rep)
             else Posted(w') == Posted(ws[i]) && a' == a
    ensures AccountSpec(c, cache0, base, PostedAll(ws[i := w']), a')
  {
  }

  lemma WorkerDataKept(c: Config, cache0: Snapshot, s: State, i: nat, ok: bool)
    requires Valid(c) && Shape(c, s) && Enabled(c, s, Work(i, ok))
    requires WorkerData(c, cache0, i, s.ws[i]) && CacheSpec(c, cache0, DoneAll(s.ws), s.cache)
    requires WorkerShape(c, i, DoWork(c, s, i, ok).ws[i])
    ensures WorkerData(c, cache0, i, DoWork(c, s, i, ok).ws[i])
  {
    var w := s.ws[i];
    if w.Holding? {
      assert DoneAll(s.ws)[i] == w.k && Slot(c, i, w.k);
    } else if w.Loaded? {
      hide CacheSpec;
    } else {
      hide CacheSpec;
    }
  }

  /** Work is dropped only after a cancellation, and dropping a download or the rest of a group leaves an
      error; a group that was never launched leaves none. */
  ghost predicate Drops(c: Config, s: State) {
    && |s.ws| == |c.work|
    && (s.interrupted ==> s.cancelled)
    && (forall i :: 0 <= i < s.main && i < |s.ws| && s.ws[i].Dormant? ==> s.cancelled && (i < c.nd ==> s.interrupted))
    && (forall i :: 0 <= i < |s.ws| && s.ws[i].Stopped? && s.ws[i].ok && s.ws[i].n < |c.work[i]| ==> s.interrupted)
  }

  lemma DropsKept(c: Config, s: State, t: Step)
    requires Valid(c) && Shape(c, s) && Enabled(c, s, t) && Drops(c, s)
    ensures Drops(c, Do(c, s, t))
  {
  }

  // ----- The log ------------------------------------------------------------------------------

  /** The log tells exactly which nodes began, which ended and how, and which acted; nothing occurs twice. */
  ghost predicate LogSpec(c: Config, cache0: Snapshot, began: seq<nat>, done: seq<nat>, log: seq<Event>) {
    && Counts(c, began) && Counts(c, done)
    && (forall i, k :: Slot(c, i, k) ==> (Enter(At(c, i, k)) in log <==> k < began[i]))
    && (forall i, k, ok :: Slot(c, i, k) ==>
         (Exit(At(c, i, k), ok) in log <==> k < done[i] && ok == !Outcome(c, cache0, i, k).Broke?))
    && (forall i, k, a :: Slot(c, i, k) ==>
         (Act(At(c, i, k), a) in log <==>
           k < done[i] && !Outcome(c, cache0, i, k).Quiet? && a == Outcome(c, cache0, i, k).act))
    && (forall e :: e in log ==> Among(c, e.id))
    && (forall p, q :: 0 <= p < q < |log| ==> log[p] != log[q])
  }

  lemma LogEnter(c: Config, cache0: Snapshot, began: seq<nat>, done: seq<nat>, log: seq<Event>, i: int)
    requires Valid(c) && LogSpec(c, cache0, began, done, log)
    requires 0 <= i < |began| && began[i] < |c.work[i]|
    ensures LogSpec(c, cache0, began[i := began[i] + 1], done, log + [Enter(At(c, i, began[i]))])
  {
  }

  lemma LogTrace(c: Config, cache0: Snapshot, began: seq<nat>, done: seq<nat>, log: seq<Event>, i: int)
    requires Valid(c) && LogSpec(c, cache0, began, done, log)
    requires 0 <= i < |done| && done[i] < |c.work[i]|
    ensures LogSpec(c, cache0, began, done[i := done[i] + 1],
                    log + Trace(At(c, i, done[i]), Outcome(c, cache0, i, done[i])))
  {
  }

  lemma LogKept(c: Config, cache0: Snapshot, base: Accounts, s: State, t: Step)
    requires Valid(c) && Shape(c, s) && Enabled(c, s, t) && Data(c, cache0, base, s)
    requires LogSpec(c, cache0, BeganAll(s.ws), DoneAll(s.ws), s.log)
    ensures LogSpec(c, cache0, BeganAll(Do(c, s, t).ws), DoneAll(Do(c, s, t).ws), Do(c, s, t).log)
  {
    ShapeKept(c, s, t);
    var s' := Do(c, s, t);
    if t.Work? || (t.Main? && s.main < |c.work| && t.ok) {
      var i := if t.Work? then t.i else s.main;
      LogEffects(c, s, t, i);
      assert WorkerData(c, cache0, i, s.ws[i]);
      LogGrows(c, cache0, s.ws, s.log, i, s'.ws[i], s'.log);
    }
  }

  lemma LogEffects(c: Config, s: State, t: Step, i: nat)
    requires Valid(c) && Shape(c, s) && Enabled(c, s, t)
    requires (t.Work? && i == t.i) || (t.Main? && s.main < |c.work| && t.ok && i == s.main)
    ensures var w, s' := s.ws[i], Do(c, s, t);
            && |s'.ws| == |s.ws| && s'.ws == s.ws[i := s'.ws[i]]
            && WorkerShape(c, i, s'.ws[i])
            && LogEffect(c, i, w, s'.ws[i], s.log, s'.log)
  {
    if t.Work? {
      WorkerLogEffects(c, s, i, t.ok);
    } else {
      assert s.ws[i].Dormant?;
    }
  }

  lemma WorkerLogEffects(c: Config, s: State, i: nat, ok: bool)
    requires Valid(c) && Shape(c, s) && Enabled(c, s, Work(i, ok))
    ensures var w, s' := s.ws[i], DoWork(c, s, i, ok);
            && |s'.ws| == |s.ws| && s'.ws == s.ws[i := s'.ws[i]]
            && WorkerShape(c, i, s'.ws[i])
            && LogEffect(c, i, w, s'.ws[i], s.log, s'.log)
  {
    assert WorkerShape(c, i, s.ws[i]);
  }

  ghost predicate LogEffect(c: Config, i: nat, w: Worker, w': Worker, log: seq<Event>, log': seq<Event>)
    requires i < |c.work| && WorkerShape(c, i, w)
  {
    if w.Loaded? then
      Began(w') == Began(w) && Done(w') == w.k + 1 && log' == log + Trace(At(c, i, w.k), c.run(At(c, i, w.k), w.cur))
    else if w'.Holding? then
      Began(w') == Began(w) + 1 && Began(w) == w'.k && Done(w') == Done(w) &&
      w'.k < |c.work[i]| && log' == log + [Enter(At(c, i, w'.k))]
    else Began(w') == Began(w) && Done(w') == Done(w) && log' == log
  }

  lemma LogGrows(c: Config, cache0: Snapshot, ws: seq<Worker>, log: seq<Event>, i: nat, w': Worker, log': seq<Event>)
    requires Valid(c) && i < |ws| == |c.work|
    requires (forall j :: 0 <= j < |ws| ==> WorkerShape(c, j, ws[j])) && WorkerShape(c, i, w')
    requires WorkerData(c, cache0, i, ws[i])
    requires LogSpec(c, cache0, BeganAll(ws), DoneAll(ws), log)
    requires LogEffect(c, i, ws[i], w', log, log')
    ensures LogSpec(c, cache0, BeganAll(ws[i := w']), DoneAll(ws[i := w']), log')
  {
    CountsUpdate(c, ws, i, w');
    var began, done := BeganAll(ws), DoneAll(ws);
    if ws[i].Loaded? {
      LogTrace(c, cache0, began, done, log, i);
      assert began[i := Began(w')] == began;
    } else if w'.Holding? {
      LogEnter(c, cache0, began, done, log, i);
      assert done[i := Done(w')] == done;
    } else {
      assert began[i := Began(w')] == began && done[i := Done(w')] == done;
    }
  }

  // ----- Runs ---------------------------------------------------------------------------------

  ghost predicate Inv(c: Config, cache0: Snapshot, base: Accounts, s: State) {
    && Shape(c, s)
    && Semaphore(c, s)
    && Data(c, cache0, base, s)
    && Drops(c, s)
    && LogSpec(c, cache0, BeganAll(s.ws), DoneAll(s.ws), s.log)
  }

  ghost predicate Run(c: Config, s: State, steps: seq<Step>, t: State)
    requires Valid(c) && Shape(c, s)
    decreases steps
  {
    if steps == [] then s == t
    else
      && Enabled(c, s, steps[0])
      && (ShapeKept(c, s, steps[0]); Run(c, Do(c, s, steps[0]), steps[1..], t))
  }

  lemma InitInv(c: Config, cache0: Snapshot, base: Accounts, cancelled: bool)
    requires Valid(c)
    ensures Inv(c, cache0, base, Init(c, cache0, base, cancelled))
  {
  }

  lemma InvKept(c: Config, cache0: Snapshot, base: Accounts, s: State, t: Step)
    requires Valid(c) && Inv(c, cache0, base, s) && Enabled(c, s, t)
    ensures Inv(c, cache0, base, Do(c, s, t))
  {
    ShapeKept(c, s, t);
    SemaphoreKept(c, s, t);
    DataKept(c, cache0, base, s, t);
    DropsKept(c, s, t);
    LogKept(c, cache0, base, s, t);
  }

  lemma {:induction false} RunInv(c: Config, cache0: Snapshot, base: Accounts, s: State, steps: seq<Step>, t: State)
    requires Valid(c) && Inv(c, cache0, base, s) && Run(c, s, steps, t)
    ensures Inv(c, cache0, base, t)
    decreases steps
  {
    if steps != [] {
      InvKept(c, cache0, base, s, steps[0]);
      RunInv(c, cache0, base, Do(c, s, steps[0]), steps[1..], t);
    }
  }

  // ----- Safety in every interleaving -----------------------------------------------------------

  predicate Executing(w: Worker) {
    w.Holding? || w.Loaded?
  }

  /** Workers whose current node is between its Acquire and the end of its execution. */
  function Busy(s: State): set<nat> {
    set i: nat | i < |s.ws| && Executing(s.ws[i])
  }

  /** Whatever the interleaving, and cancelled or not: no more than par nodes execute at once; a worker
      executes at most one of its nodes (the one at position k); and once a node of a worker has begun, every
      earlier node of that worker has ended without error. */
  lemma SafeInEveryRun(c: Config, cache0: Snapshot, base: Accounts, cancelled: bool, steps: seq<Step>, t: State)
    requires Valid(c) && Run(c, Init(c, cache0, base, cancelled), steps, t)
    ensures |Busy(t)| <= c.par
    ensures forall i, k :: Slot(c, i, k) && i < |t.ws| && Enter(At(c, i, k)) in t.log ==>
              || (exists ok :: Exit(At(c, i, k), ok) in t.log)
              || (Executing(t.ws[i]) && t.ws[i].k == k)
    ensures forall i, k, j :: Slot(c, i, k) && 0 <= j < k && Enter(At(c, i, k)) in t.log ==>
              Exit(At(c, i, j), true) in t.log
    ensures forall i, k :: Slot(c, i, k) ==> !(Exit(At(c, i, k), true) in t.log && Exit(At(c, i, k), false) in t.log)
    ensures Shape(c, t)
  {
    InitInv(c, cache0, base, cancelled);
    RunInv(c, cache0, base, Init(c, cache0, base, cancelled), steps, t);
    assert Busy(t) <= Holders(t.ws);
    SubsetSize(Busy(t), Holders(t.ws));
    forall i, k | Slot(c, i, k) && i < |t.ws| && Enter(At(c, i, k)) in t.log
      ensures (exists ok :: Exit(At(c, i, k), ok) in t.log) || (Executing(t.ws[i]) && t.ws[i].k == k)
    {
      assert k < BeganAll(t.ws)[i] == Began(t.ws[i]);
      if k < DoneAll(t.ws)[i] {
        assert Exit(At(c, i, k), !Outcome(c, cache0, i, k).Broke?) in t.log;
      }
    }
    forall i, k, j | Slot(c, i, k) && 0 <= j < k && Enter(At(c, i, k)) in t.log
      ensures Exit(At(c, i, j), true) in t.log
    {
      assert k < BeganAll(t.ws)[i] == Began(t.ws[i]);
      assert WorkerData(c, cache0, i, t.ws[i]) && Slot(c, i, j);
      assert j < DoneAll(t.ws)[i] == Done(t.ws[i]);
    }
  }

  lemma {:induction false} SubsetSize(a: set<nat>, b: set<nat>)
    requires a <= b
    ensures |a| <= |b|
  {
    if a != {} {
      var x :| x in a;
      SubsetSize(a - {x}, b - {x});
    }
  }

  // ----- Every run comes to the join --------------------------------------------------------------

  function Left(w: Worker, len: nat): int {
    match w
    case Dormant => 6 * len + 1
    case Idle(k) => 6 * (len - k)
    case Holding(k) => 6 * (len - k) - 1
    case Loaded(k, _) => 6 * (len - k) - 2
    case Executed(k, _) => 6 * (len - k) - 3
    case Published(k, _) => 6 * (len - k) - 4
    case Released(k, _) => 6 * (len - k) - 4
    case Stopped(_, _) => 0
  }

  function LeftAll(c: Config, ws: seq<Worker>): int
    requires |ws| <= |c.work|
  {
    if ws == [] then 0
    else var n := |ws| - 1; LeftAll(c, ws[..n]) + Left(ws[n], |c.work[n]|)
  }

  lemma {:induction false} LeftAllUpdate(c: Config, ws: seq<Worker>, i: nat, w: Worker)
    requires i < |ws| <= |c.work|
    ensures LeftAll(c, ws[i := w]) == LeftAll(c, ws) - Left(ws[i], |c.work[i]|) + Left(w, |c.work[i]|)
  {
    var n := |ws| - 1;
    if i < n {
      LeftAllUpdate(c, ws[..n], i, w);
      assert ws[i := w][..n] == ws[..n][i := w];
    } else {
      assert ws[i := w][..n] == ws[..n];
    }
  }

  lemma {:induction false} LeftAllNonNegative(c: Config, ws: seq<Worker>)
    requires |ws| <= |c.work| && forall i :: 0 <= i < |ws| ==> WorkerShape(c, i, ws[i])
    ensures LeftAll(c, ws) >= 0
  {
    if ws != [] {
      LeftAllNonNegative(c, ws[..|ws| - 1]);
    }
  }

  /** Steps a run can still take. */
  function Measure(c: Config, s: State): int
    requires |s.ws| == |c.work|
  {
    |c.work| - s.main + (if s.joined then 0 else 1) + (if s.cancelled then 0 else 1) + LeftAll(c, s.ws)
  }

  lemma StepsDown(c: Config, s: State, t: Step)
    requires Valid(c) && Shape(c, s) && Enabled(c, s, t)
    ensures |Do(c, s, t).ws| == |c.work| && 0 <= Measure(c, Do(c, s, t)) < Measure(c, s)
  {
    ShapeKept(c, s, t);
    var s' := Do(c, s, t);
    LeftAllNonNegative(c, s'.ws);
    if t.Work? {
      WorkerStepsDown(c, s, t.i, t.ok);
      LeftAllUpdate(c, s.ws, t.i, s'.ws[t.i]);
    } else if t.Main? && s.main < |c.work| && t.ok {
      LeftAllUpdate(c, s.ws, s.main, s'.ws[s.main]);
    }
  }

  lemma WorkerStepsDown(c: Config, s: State, i: nat, ok: bool)
    requires Valid(c) && Shape(c, s) && Enabled(c, s, Work(i, ok))
    ensures var s' := DoWork(c, s, i, ok);
            && |s'.ws| == |s.ws| && s'.ws == s.ws[i := s'.ws[i]]
            && Left(s'.ws[i], |c.work[i]|) < Left(s.ws[i], |c.work[i]|)
            && s'.main == s.main && s'.joined == s.joined && s'.cancelled == s.cancelled
  {
    assert WorkerShape(c, i, s.ws[i]);
  }

  /** Once the context is cancelled, whoever waits for the semaphore may give up, and that is kept as an error: the
      launching loop of the downloads starts no more of them, a group none of its remaining nodes. */
  lemma WaitersGiveUp(c: Config, s: State)
    requires Valid(c) && Shape(c, s) && s.cancelled
    ensures s.main < c.nd ==>
              && Enabled(c, s, Main(false))
              && Do(c, s, Main(false)) == s.(main := c.nd, interrupted := true)
    ensures forall i :: 0 <= i < |s.ws| && s.ws[i].Idle? ==>
              && Enabled(c, s, Work(i, false))
              && Do(c, s, Work(i, false)) == s.(ws := s.ws[i := Stopped(s.ws[i].k, true)], interrupted := true)
  {
  }

  /** Before the join some step other than a cancellation can always be taken. */
  lemma NeverStuck(c: Config, s: State) returns (t: Step)
    requires Valid(c) && Shape(c, s) && Semaphore(c, s) && !s.joined
    ensures !t.Cancel? && Enabled(c, s, t)
  {
    if i :| 0 <= i < |s.ws| && !AtRest(s.ws[i]) && !s.ws[i].Idle? {
      return Work(i, true);
    }
    HoldersEmpty(s.ws);
    if i :| 0 <= i < |s.ws| && s.ws[i].Idle? {
      return Work(i, true);
    }
    return Main(if c.nd <= s.main < |c.work| then !s.cancelled else true);
  }

  /** No run is longer than the measure of its first state... */
  lemma {:induction false} RunsEnd(c: Config, s: State, steps: seq<Step>, t: State)
    requires Valid(c) && Shape(c, s) && Run(c, s, steps, t)
    ensures Shape(c, t) && 0 <= Measure(c, t) <= Measure(c, s) - |steps|
    decreases steps
  {
    if steps == [] {
      LeftAllNonNegative(c, s.ws);
    } else {
      ShapeKept(c, s, steps[0]);
      StepsDown(c, s, steps[0]);
      RunsEnd(c, Do(c, s, steps[0]), steps[1..], t);
    }
  }

  /** ... and every unfinished run extends to the join without any help from a cancellation. */
  lemma {:induction false} AlwaysJoins(c: Config, s: State) returns (steps: seq<Step>, t: State)
    requires Valid(c) && Shape(c, s) && Semaphore(c, s)
    ensures Run(c, s, steps, t) && t.joined && Cancel !in steps
    decreases (LeftAllNonNegative(c, s.ws); Measure(c, s))
  {
    LeftAllNonNegative(c, s.ws);
    if s.joined {
      return [], s;
    }
    var first := NeverStuck(c, s);
    ShapeKept(c, s, first);
    SemaphoreKept(c, s, first);
    StepsDown(c, s, first);
    var rest, u := AlwaysJoins(c, Do(c, s, first));
    steps, t := [first] + rest, u;
    assert steps[1..] == rest;
  }

  lemma HoldersEmpty(ws: seq<Worker>)
    requires forall i :: 0 <= i < |ws| ==> !Holds(ws[i])
    ensures Holders(ws) == {}
  {
  }

  // ----- The outcome does not depend on the interleaving ------------------------------------------

  /** How many nodes of worker i are executed from position k on: up to and including the first failure. */
  function Extent(c: Config, cache0: Snapshot, i: int, k: nat): nat
    requires 0 <= i < |c.work| && k <= |c.work[i]|
    decreases |c.work[i]| - k
  {
    if k == |c.work[i]| then k
    else if Outcome(c, cache0, i, k).Broke? then k + 1
    else Extent(c, cache0, i, k + 1)
  }

  function Extents(c: Config, cache0: Snapshot): seq<nat> {
    seq(|c.work|, i requires 0 <= i < |c.work| => Extent(c, cache0, i, 0))
  }

  lemma {:induction false} ExtentIs(c: Config, cache0: Snapshot, i: int, k: nat, n: nat)
    requires 0 <= i < |c.work| && k <= n <= |c.work[i]|
    requires forall j :: k <= j < n - 1 ==> !Outcome(c, cache0, i, j).Broke?
    requires k < n ==> n == |c.work[i]| || Outcome(c, cache0, i, n - 1).Broke?
    requires k == n ==> n == |c.work[i]|
    ensures Extent(c, cache0, i, k) == n
    decreases |c.work[i]| - k
  {
    if k < n && !Outcome(c, cache0, i, k).Broke? {
      ExtentIs(c, cache0, i, k + 1, n);
    }
  }

  /** At the join of an uncancelled run every worker got as far as its first failure, or to its end. */
  lemma JoinedExtents(c: Config, cache0: Snapshot, base: Accounts, s: State)
    requires Valid(c) && Inv(c, cache0, base, s) && s.joined && !s.cancelled
    ensures BeganAll(s.ws) == Extents(c, cache0) && DoneAll(s.ws) == Extents(c, cache0)
    ensures PostedAll(s.ws) == Extents(c, cache0)
    ensures !s.interrupted
  {
    forall i | 0 <= i < |s.ws|
      ensures s.ws[i].Stopped? && Extent(c, cache0, i, 0) == s.ws[i].n
    {
      assert AtRest(s.ws[i]) && WorkerShape(c, i, s.ws[i]);
      assert WorkerData(c, cache0, i, s.ws[i]);
      var n := s.ws[i].n;
      forall j | 0 <= j < n - 1 ensures !Outcome(c, cache0, i, j).Broke? {
        assert Slot(c, i, j);
      }
      ExtentIs(c, cache0, i, 0, n);
    }
  }

  /** Running the workers one after another, each node to its end before the next one starts. */
  function Sequentially(c: Config, i: nat, k: nat, cache: Snapshot, a: Accounts): (Snapshot, Accounts)
    requires Valid(c) && i <= |c.work| && (i < |c.work| ==> k <= |c.work[i]|)
    decreases |c.work| - i, if i < |c.work| then |c.work[i]| - k else 0
  {
    if i == |c.work| then (cache, a)
    else if k == |c.work[i]| then Sequentially(c, i + 1, 0, cache, a)
    else
      var r := c.run(At(c, i, k), Get(cache, At(c, i, k)));
      var cache', a' := Written(cache, At(c, i, k), r), Booked(a, At(c, i, k), r);
      if r.Broke? then Sequentially(c, i + 1, 0, cache', a') else Sequentially(c, i, k + 1, cache', a')
  }

  /** The sequential execution stands at node k of worker i. */
  ghost predicate StandsAt(c: Config, cache0: Snapshot, i: nat, k: nat, done: seq<nat>) {
    && |done| == |c.work| && i <= |c.work|
    && (forall j :: 0 <= j < i ==> done[j] == Extent(c, cache0, j, 0))
    && (i < |c.work| ==> done[i] == k <= |c.work[i]| && Extent(c, cache0, i, 0) == Extent(c, cache0, i, k))
    && (forall j :: i < j < |c.work| ==> done[j] == 0)
  }

  lemma StandsFurther(c: Config, cache0: Snapshot, i: nat, k: nat, done: seq<nat>)
    requires StandsAt(c, cache0, i, k, done) && i < |c.work|
    ensures k == |c.work[i]| ==> StandsAt(c, cache0, i + 1, 0, done)
    ensures k < |c.work[i]| ==>
              if Outcome(c, cache0, i, k).Broke? then StandsAt(c, cache0, i + 1, 0, done[i := k + 1])
              else StandsAt(c, cache0, i, k + 1, done[i := k + 1])
  {
  }

  lemma StandsAtEnd(c: Config, cache0: Snapshot, k: nat, done: seq<nat>)
    requires StandsAt(c, cache0, |c.work|, k, done)
    ensures done == Extents(c, cache0)
  {
  }

  lemma {:induction false} SequentialSpec(c: Config, cache0: Snapshot, base: Accounts, i: nat, k: nat, cache: Snapshot,
                                          a: Accounts, done: seq<nat>)
    requires Valid(c) && StandsAt(c, cache0, i, k, done)
    requires CacheSpec(c, cache0, done, cache) && AccountSpec(c, cache0, base, done, a)
    ensures var r := Sequentially(c, i, k, cache, a);
            CacheSpec(c, cache0, Extents(c, cache0), r.0) && AccountSpec(c, cache0, base, Extents(c, cache0), r.1)
    decreases |c.work| - i, if i < |c.work| then |c.work[i]| - k else 0
  {
    hide Valid, CacheSpec, AccountSpec, Extent;
    if i == |c.work| {
      StandsAtEnd(c, cache0, k, done);
    } else {
      StandsFurther(c, cache0, i, k, done);
      if k == |c.work[i]| {
        SequentialSpec(c, cache0, base, i + 1, 0, cache, a, done);
      } else {
        WriteOne(c, cache0, done, cache, i);
        BookOne(c, cache0, base, done, a, i);
        var r := Outcome(c, cache0, i, k);
        var next := if r.Broke? then (i + 1, 0) else (i, k + 1);
        SequentialSpec(c, cache0, base, next.0, next.1, Written(cache, At(c, i, k), r), Booked(a, At(c, i, k), r),
                       done[i := k + 1]);
      }
    }
  }

  lemma SpecUnique(c: Config, cache0: Snapshot, base: Accounts, done: seq<nat>, cache1: Snapshot, a1: Accounts,
                   cache2: Snapshot, a2: Accounts)
    requires CacheSpec(c, cache0, done, cache1) && AccountSpec(c, cache0, base, done, a1)
    requires CacheSpec(c, cache0, done, cache2) && AccountSpec(c, cache0, base, done, a2)
    ensures cache1 == cache2 && a1 == a2
  {
    forall id
      ensures Get(cache1, id) == Get(cache2, id)
      ensures id in a1.updated <==> id in a2.updated
      ensures id in a1.acted <==> id in a2.acted
      ensures id in a1.failed <==> id in a2.failed
    {
      if Among(c, id) {
        var i, k :| Slot(c, i, k) && At(c, i, k) == id;
      }
    }
    SameLookups(cache1, cache2);
  }

  /** Confluence: if the context is not cancelled, every complete run ends with the cache, the updated
      runtimes, the executed actions and the failures of the sequential execution, node failures included. */
  lemma Confluence(c: Config, cache0: Snapshot, base: Accounts, steps: seq<Step>, t: State)
    requires Valid(c) && Run(c, Init(c, cache0, base, false), steps, t) && t.joined && !t.cancelled
    ensures (t.cache, t.accounts) == Sequentially(c, 0, 0, cache0, base)
  {
    InitInv(c, cache0, base, false);
    RunInv(c, cache0, base, Init(c, cache0, base, false), steps, t);
    JoinedSequential(c, cache0, base, t);
  }

  lemma JoinedSequential(c: Config, cache0: Snapshot, base: Accounts, t: State)
    requires Valid(c) && Inv(c, cache0, base, t) && t.joined && !t.cancelled
    ensures (t.cache, t.accounts) == Sequentially(c, 0, 0, cache0, base)
  {
    JoinedExtents(c, cache0, base, t);
    var zero: seq<nat> := seq(|c.work|, i => 0);
    SequentialSpec(c, cache0, base, 0, 0, cache0, base, zero);
    var r := Sequentially(c, 0, 0, cache0, base);
    SpecUnique(c, cache0, base, Extents(c, cache0), t.cache, t.accounts, r.0, r.1);
  }

  // ----- What the join hands back -----------------------------------------------------------------

  /** A phase that is over: done tells how far each worker got. */
  ghost predicate Over(c: Config, cache0: Snapshot, base: Accounts, done: seq<nat>, cache: Snapshot, a: Accounts,
                       log: seq<Event>)
  {
    && CacheSpec(c, cache0, done, cache)
    && AccountSpec(c, cache0, base, done, a)
    && LogSpec(c, cache0, done, done, log)
  }

  ghost predicate Complete(c: Config, cache0: Snapshot, done: seq<nat>) {
    && Counts(c, done)
    && (forall i :: 0 <= i < |done| ==> done[i] == |c.work[i]|)
    && (forall i, k :: Slot(c, i, k) ==> !Outcome(c, cache0, i, k).Broke?)
  }

  /** A join without an error: no executed node failed, and a worker that did not execute all its nodes is
      a delegation group dropped whole because of a cancellation. So without an error and without a
      cancellation every node was executed; downloads are never dropped without an error. */
  lemma JoinedComplete(c: Config, cache0: Snapshot, base: Accounts, s: State)
    requires Valid(c) && Inv(c, cache0, base, s) && s.joined
    ensures Over(c, cache0, base, DoneAll(s.ws), s.cache, s.accounts, s.log)
    ensures s.accounts.failed == {} && !s.interrupted ==>
              && (forall i, k :: Slot(c, i, k) && k < DoneAll(s.ws)[i] ==> !Outcome(c, cache0, i, k).Broke?)
              && (forall i :: 0 <= i < |s.ws| && DoneAll(s.ws)[i] < |c.work[i]| ==>
                  s.cancelled && c.nd <= i && s.ws[i].Dormant?)
    ensures s.accounts.failed == {} && !s.interrupted && (!s.cancelled || c.nd == |c.work|) ==>
      Complete(c, cache0, DoneAll(s.ws))
  {
    assert forall i :: 0 <= i < |s.ws| ==> AtRest(s.ws[i]);
    assert BeganAll(s.ws) == DoneAll(s.ws) == PostedAll(s.ws);
    if s.accounts.failed == {} && !s.interrupted {
      forall i, k | Slot(c, i, k) && k < DoneAll(s.ws)[i]
        ensures !Outcome(c, cache0, i, k).Broke?
      {
        assert At(c, i, k) !in s.accounts.failed;
      }
      forall i | 0 <= i < |s.ws| && DoneAll(s.ws)[i] < |c.work[i]|
        ensures s.cancelled && c.nd <= i && s.ws[i].Dormant?
      {
        assert WorkerData(c, cache0, i, s.ws[i]) && WorkerShape(c, i, s.ws[i]);
        if s.ws[i].Stopped? && !s.ws[i].ok {
          assert Slot(c, i, s.ws[i].n - 1);
        }
      }
    }
  }

  ghost predicate Ended(id: NodeID, log: seq<Event>) {
    exists ok :: Exit(id, ok) in log
  }

  /** A node is executed if and only if no earlier one of its worker failed. */
  ghost predicate Tried(work: seq<seq<NodeID>>, log: seq<Event>) {
    forall i, k :: 0 <= i < |work| && 0 <= k < |work[i]| ==>
      (Ended(work[i][k], log) <==> !FailedBefore(work[i], k, log))
  }

  ghost predicate FailedBefore(nodes: seq<NodeID>, k: nat, log: seq<Event>)
    requires k <= |nodes|
  {
    exists j :: 0 <= j < k && Exit(nodes[j], false) in log
  }

  /** Continue on error between workers, fail fast inside one. */
  lemma JoinedTried(c: Config, cache0: Snapshot, base: Accounts, s: State)
    requires Valid(c) && Inv(c, cache0, base, s) && s.joined && !s.cancelled
    ensures Tried(c.work, s.log)
  {
    hide Data, Semaphore;
    JoinedExtents(c, cache0, base, s);
    forall i, k | 0 <= i < |c.work| && 0 <= k < |c.work[i]|
      ensures Ended(c.work[i][k], s.log) <==> !FailedBefore(c.work[i], k, s.log)
    {
      var n := DoneAll(s.ws)[i];
      assert Slot(c, i, k) && n == Extent(c, cache0, i, 0);
      ExtentEnds(c, cache0, i, 0);
      if k < n {
        assert Exit(At(c, i, k), !Outcome(c, cache0, i, k).Broke?) in s.log;
        forall j | 0 <= j < k ensures Exit(c.work[i][j], false) !in s.log {
          assert Slot(c, i, j) && At(c, i, j) == c.work[i][j];
        }
      } else {
        assert Slot(c, i, n - 1) && Exit(At(c, i, n - 1), false) in s.log;
        assert c.work[i][n - 1] == At(c, i, n - 1);
        assert forall ok :: Exit(At(c, i, k), ok) !in s.log;
      }
    }
  }

  lemma {:induction false} ExtentEnds(c: Config, cache0: Snapshot, i: int, k: nat)
    requires 0 <= i < |c.work| && k <= |c.work[i]|
    ensures var n := Extent(c, cache0, i, k);
            && k <= n <= |c.work[i]| && (n < |c.work[i]| ==> n > k && Outcome(c, cache0, i, n - 1).Broke?)
            && forall j :: k <= j < n - 1 ==> !Outcome(c, cache0, i, j).Broke?
    decreases |c.work[i]| - k
  {
    if k < |c.work[i]| && !Outcome(c, cache0, i, k).Broke? {
      ExtentEnds(c, cache0, i, k + 1);
    }
  }

  /** A node failed exactly if the log tells so. */
  lemma OverFailures(c: Config, cache0: Snapshot, base: Accounts, done: seq<nat>, cache: Snapshot, a: Accounts,
                     log: seq<Event>)
    requires Over(c, cache0, base, done, cache, a, log) && base.failed == {}
    ensures a.failed == {} <==> !Failure(log)
  {
    if a.failed != {} {
      var id :| id in a.failed;
      assert Among(c, id);
      var i, k :| Slot(c, i, k) && At(c, i, k) == id;
      assert Exit(id, false) in log;
    }
    if Failure(log) {
      var id :| Exit(id, false) in log;
      assert Among(c, Exit(id, false).id);
      var i, k :| Slot(c, i, k) && At(c, i, k) == id;
      assert id in a.failed;
    }
  }

  // ----- The silent drop --------------------------------------------------------------------------

  /** The run ends without an error although some node was not executed. */
  ghost predicate DropsSilently(c: Config, cache0: Snapshot, base: Accounts, steps: seq<Step>, t: State)
    requires Valid(c)
  {
    && Run(c, Init(c, cache0, base, false), steps, t) && |t.ws| == |c.work|
    && t.joined && t.accounts.failed == {} && !t.interrupted && !Complete(c, cache0, DoneAll(t.ws))
  }

  /** Downloads before i have run to their end, nothing else has begun, and all is well. */
  ghost predicate Served(c: Config, cache0: Snapshot, base: Accounts, s: State, i: nat) {
    && Inv(c, cache0, base, s) && s.main == i <= c.nd && c.nd <= |s.ws| == |c.work|
    && !s.joined && !s.cancelled && !s.interrupted && s.accounts.failed == {}
    && (forall j :: 0 <= j < |s.ws| ==> AtRest(s.ws[j]))
    && (forall j :: i <= j < |s.ws| ==> s.ws[j].Dormant?)
  }

  lemma RunOn(c: Config, s: State, first: Step, steps: seq<Step>, t: State)
    requires Valid(c) && Shape(c, s) && Enabled(c, s, first) && Shape(c, Do(c, s, first))
    requires Run(c, Do(c, s, first), steps, t)
    ensures Run(c, s, [first] + steps, t)
  {
  }

  /** Download i is launched while a slot is free. */
  lemma Launched(c: Config, cache0: Snapshot, base: Accounts, s: State, i: nat)
    requires Valid(c) && Served(c, cache0, base, s, i) && i < c.nd
    ensures Shape(c, s) && Enabled(c, s, Main(true))
    ensures var u := Do(c, s, Main(true));
            Inv(c, cache0, base, u) &&
              u == s.(main := i + 1, ws := s.ws[i := Holding(0)], held := s.held + 1, log := u.log)
  {
    HoldersEmpty(s.ws);
    InvKept(c, cache0, base, s, Main(true));
  }

  /** One more step of download i, which is at work and does not fail. */
  lemma Worked(c: Config, cache0: Snapshot, base: Accounts, s: State, i: nat)
    requires Valid(c) && Inv(c, cache0, base, s) && i < c.nd && |s.ws| == |c.work| && !AtRest(s.ws[i])
    requires !s.ws[i].Idle? && s.ws[i].k == 0
    requires !Outcome(c, cache0, i, 0).Broke? && s.accounts.failed == {}
    ensures Shape(c, s) && Enabled(c, s, Work(i, true))
    ensures var u := Do(c, s, Work(i, true)); var w := u.ws[i];
            && Inv(c, cache0, base, u) && u.ws == s.ws[i := w] && u.accounts.failed == {}
            && u.main == s.main && u.joined == s.joined && u.cancelled == s.cancelled && u.interrupted == s.interrupted
            && match s.ws[i]
               case Holding(_) => w.Loaded? && w.k == 0
               case Loaded(_, _) => w.Executed? && w.k == 0
               case Executed(_, _) => w.Published? && w.k == 0
               case Published(_, _) => w.Stopped? && w.n == 1 && w.ok
               case _ => true
  {
    InvKept(c, cache0, base, s, Work(i, true));
    assert WorkerData(c, cache0, i, s.ws[i]) && WorkerShape(c, i, s.ws[i]);
  }

  /** The steps of download i, and then others. */
  function ServeSteps(i: nat, rest: seq<Step>): seq<Step> {
    [Main(true)] + ([Work(i, true)] + ([Work(i, true)] + ([Work(i, true)] + ([Work(i, true)] + rest))))
  }

  lemma Serve(c: Config, cache0: Snapshot, base: Accounts, s: State, i: nat) returns (u: State)
    requires Valid(c) && Served(c, cache0, base, s, i) && i < c.nd && !Outcome(c, cache0, i, 0).Broke?
    ensures Shape(c, s) && Served(c, cache0, base, u, i + 1) && Shape(c, u)
    ensures forall rest, t :: Run(c, u, rest, t) ==> Run(c, s, ServeSteps(i, rest), t)
  {
    hide Do, Enabled, Valid, Semaphore, Data, Drops, LogSpec, Run, Outcome;
    Launched(c, cache0, base, s, i);
    var a := Do(c, s, Main(true));
    assert a.ws[i] == Holding(0);
    Worked(c, cache0, base, a, i);
    var b := Do(c, a, Work(i, true));
    Worked(c, cache0, base, b, i);
    var d := Do(c, b, Work(i, true));
    Worked(c, cache0, base, d, i);
    var e := Do(c, d, Work(i, true));
    Worked(c, cache0, base, e, i);
    u := Do(c, e, Work(i, true));
    assert u.ws == s.ws[i := Stopped(1, true)];
    forall rest, t | Run(c, u, rest, t) ensures Run(c, s, ServeSteps(i, rest), t) {
      var w := Work(i, true);
      RunOn(c, e, w, rest, t);
      RunOn(c, d, w, [w] + rest, t);
      RunOn(c, b, w, [w] + ([w] + rest), t);
      RunOn(c, a, w, [w] + ([w] + ([w] + rest)), t);
      RunOn(c, s, Main(true), [w] + ([w] + ([w] + ([w] + rest))), t);
    }
  }

  /** All downloads are done: the context is cancelled, the main goroutine leaves its loop, and nobody is left. */
  lemma GiveUp(c: Config, cache0: Snapshot, base: Accounts, s: State) returns (t: State)
    requires Valid(c) && Served(c, cache0, base, s, c.nd) && c.nd < |c.work|
    ensures Shape(c, s) && Run(c, s, [Cancel] + ([Main(false)] + ([Main(true)] + [])), t)
    ensures t == s.(cancelled := true, main := |c.work|, joined := true)
  {
    hide Run, Data, Semaphore, LogSpec, Drops;
    var a := Do(c, s, Cancel);
    var b := Do(c, a, Main(false));
    t := Do(c, b, Main(true));
    ShapeKept(c, s, Cancel);
    ShapeKept(c, a, Main(false));
    ShapeKept(c, b, Main(true));
    RunEmpty(c, t);
    RunOn(c, b, Main(true), [], t);
    RunOn(c, a, Main(false), [Main(true)] + [], t);
    RunOn(c, s, Cancel, [Main(false)] + ([Main(true)] + []), t);
  }

  lemma RunEmpty(c: Config, t: State)
    requires Valid(c) && Shape(c, t)
    ensures Run(c, t, [], t)
  {
  }

  lemma {:induction false} ServeThenDrop(c: Config, cache0: Snapshot, base: Accounts, s: State,
                                         i: nat) returns (steps: seq<Step>, t: State)
    requires Valid(c) && Served(c, cache0, base, s, i) && c.nd < |c.work|
    requires forall j :: i <= j < c.nd ==> Slot(c, j, 0) && !Outcome(c, cache0, j, 0).Broke?
    ensures Shape(c, s) && Run(c, s, steps, t)
    ensures |t.ws| == |c.work| && t.joined && t.accounts.failed == {} && !t.interrupted && t.ws[c.nd].Dormant?
    decreases c.nd - i
  {
    hide Do, Run, Inv, Outcome;
    assert Shape(c, s) by { InvShape(c, cache0, base, s); }
    if i == c.nd {
      t := GiveUp(c, cache0, base, s);
      steps := [Cancel] + ([Main(false)] + ([Main(true)] + []));
    } else {
      var u := Serve(c, cache0, base, s, i);
      var rest;
      rest, t := ServeThenDrop(c, cache0, base, u, i + 1);
      steps := ServeSteps(i, rest);
    }
  }

  lemma InvShape(c: Config, cache0: Snapshot, base: Accounts, s: State)
    requires Inv(c, cache0, base, s)
    ensures Shape(c, s)
  {
  }

  /** The silent drop does happen, also with downloads and a context that is not cancelled at first: once they are
      done a cancellation makes the launching loop leave, the groups never run, and no error is reported. */
  lemma SilentDrop(c: Config, cache0: Snapshot, base: Accounts) returns (steps: seq<Step>, t: State)
    requires Valid(c) && base.failed == {} && c.nd < |c.work|
    requires forall i :: 0 <= i < c.nd ==> !Outcome(c, cache0, i, 0).Broke?
    ensures DropsSilently(c, cache0, base, steps, t)
  {
    hide Run, Inv, Outcome;
    InitInv(c, cache0, base, false);
    var s := Init(c, cache0, base, false);
    steps, t := ServeThenDrop(c, cache0, base, s, 0);
    assert DoneAll(t.ws)[c.nd] == 0 < |c.work[c.nd]|;
  }

  /** Exactly when the goroutines can end without an error and without having executed all nodes: there is a
      delegation group, and no download fails. */
  lemma SilentDropExactly(c: Config, cache0: Snapshot, base: Accounts)
    requires Valid(c) && base.failed == {}
    ensures (exists steps, t :: DropsSilently(c, cache0, base, steps, t)) <==>
            c.nd < |c.work| && forall i :: 0 <= i < c.nd ==> !Outcome(c, cache0, i, 0).Broke?
  {
    hide Run, Outcome, Inv, Complete;
    if steps, t :| DropsSilently(c, cache0, base, steps, t) {
      InitInv(c, cache0, base, false);
      RunInv(c, cache0, base, Init(c, cache0, base, false), steps, t);
      JoinedComplete(c, cache0, base, t);
      forall i | 0 <= i < c.nd ensures !Outcome(c, cache0, i, 0).Broke? {
        assert Slot(c, i, 0);
      }
    }
    if c.nd < |c.work| && forall i :: 0 <= i < c.nd ==> !Outcome(c, cache0, i, 0).Broke? {
      var steps, t := SilentDrop(c, cache0, base);
    }
  }

  // ----- Running the system -----------------------------------------------------------------------

  /** An arbitrary enabled step. */
  method Choose(c: Config, s: State) returns (t: Step)
    requires Valid(c) && Shape(c, s) && Semaphore(c, s) && !s.joined
    ensures Enabled(c, s, t)
  {
    var mains := set t | t in {Cancel, Main(true), Main(false)} && Enabled(c, s, t);
    var works := set i: nat, ok | i < |s.ws| && ok in {true, false} && Enabled(c, s, Work(i, ok)) :: Work(i, ok);
    ghost var next := NeverStuck(c, s);
    assert next in mains + works;
    t :| t in mains + works;
  }

  /** Where a step leaves the cache and the context. */
  lemma StepEffects(c: Config, s: State, t: Step)
    requires Valid(c) && Shape(c, s) && Enabled(c, s, t)
    ensures var s' := Do(c, s, t);
            && s'.cancelled == (s.cancelled || t.Cancel?)
            && (if t.Work? && s.ws[t.i].Loaded?
                then s.ws[t.i].k < |c.work[t.i]| &&
                     var id := At(c, t.i, s.ws[t.i].k); s'.cache == Written(s.cache, id, c.run(id, s.ws[t.i].cur))
                else s'.cache == s.cache)
  {
  }
}
