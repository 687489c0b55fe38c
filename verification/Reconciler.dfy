/** Deciding what has to be done: the three comparators and the reconciler that uses them. */
module Reconciler {
  import opened Prelude
  import opened Resources

  // ----- Comparators ------------------------------------------------------------------------

  predicate SpecVersionChanged(specVersion: string, kind: VersionKind, stateVersion: string, stateSpecVersion: string) {
    match kind
    case VersionLatest => !IsLatestVersion(specVersion)
    case VersionAlias => specVersion != stateSpecVersion
    case VersionExact => specVersion != stateVersion
    case VersionOther(_) => specVersion != stateVersion
  }

  predicate ToolNeedsUpdate(spec: ToolSpec, st: ToolState) {
    || SpecVersionChanged(spec.version, st.versionKind, st.version, st.specVersion)
    || st.taintReason != ""
    || spec.binaryName != st.binaryName
  }

  predicate RuntimeNeedsUpdate(spec: RuntimeSpec, st: RuntimeState) {
    || SpecVersionChanged(spec.version, st.versionKind, st.version, st.specVersion)
    || st.taintReason != ""
  }

  predicate RepoNeedsUpdate(spec: RepoSpec, st: RepoState) {
    spec.url != st.url || spec.sourceType != st.sourceType
  }

  // ----- Reconcile --------------------------------------------------------------------------

  /** For a removal there is no desired resource, for an installation no current state. */
  datatype Action<R, S> = Action(typ: ActionType, name: string, resource: Option<R>, state: Option<S>)

  /** What the reconciler owes one name, given the desired resources and the states by name. */
  function Owed<R, S>(compare: (R, S) -> bool, want: map<string, R>, states: map<string, S>,
                      n: string): Option<Action<R, S>> {
    if n in want then
      if n !in states then Some(Action(ActionInstall, n, Some(want[n]), None))
      else if compare(want[n], states[n]) then Some(Action(ActionUpgrade, n, Some(want[n]), Some(states[n])))
      else None
    else if n in states then Some(Action(ActionRemove, n, None, Some(states[n])))
    else None
  }

  /** Desired resources by name; a later duplicate replaces an earlier one. */
  function ByName<R>(nameOf: R -> string, resources: seq<R>): map<string, R> {
    if resources == [] then map[]
    else
      var n := |resources| - 1;
      ByName(nameOf, resources[..n])[nameOf(resources[n]) := resources[n]]
  }

  /** The actions hold exactly what every name of a set is owed, one action a name. */
  ghost predicate Covers<R, S>(compare: (R, S) -> bool, want: map<string, R>, states: map<string, S>,
                               names: set<string>, actions: seq<Action<R, S>>)
  {
    && (forall i :: 0 <= i < |actions| ==>
         actions[i].name in names && Owed(compare, want, states, actions[i].name) == Some(actions[i]))
    && (forall n :: n in names && Owed(compare, want, states, n).Some? ==>
        exists i :: 0 <= i < |actions| && actions[i].name == n)
    && (forall i, j :: 0 <= i < j < |actions| ==> actions[i].name != actions[j].name)
  }

  ghost predicate RemovalsLast<R, S>(actions: seq<Action<R, S>>) {
    forall i, j :: 0 <= i < j < |actions| && actions[i].typ == ActionRemove ==> actions[j].typ == ActionRemove
  }

  ghost predicate Settles<R, S>(compare: (R, S) -> bool, want: map<string, R>, states: map<string, S>,
                                actions: seq<Action<R, S>>)
  {
    Covers(compare, want, states, want.Keys + states.Keys, actions) && RemovalsLast(actions)
  }

  lemma CoversOneMore<R, S>(compare: (R, S) -> bool, want: map<string, R>, states: map<string, S>, names: set<string>,
                            actions: seq<Action<R, S>>, n: string)
    requires Covers(compare, want, states, names, actions) && n !in names
    ensures var o := Owed(compare, want, states, n);
            Covers(compare, want, states, names + {n}, if o.Some? then actions + [o.value] else actions)
  {
    var o := Owed(compare, want, states, n);
    if o.Some? {
      var more := actions + [o.value];
      assert more[|actions|] == o.value;
      forall m | m in names + {n} && Owed(compare, want, states, m).Some?
        ensures exists i :: 0 <= i < |more| && more[i].name == m
      {
        if m != n {
          var i :| 0 <= i < |actions| && actions[i].name == m;
          assert more[i].name == m;
        }
      }
    }
  }

  method IndexByName<R>(nameOf: R -> string, resources: seq<R>) returns (want: map<string, R>)
    ensures want == ByName(nameOf, resources)
  {
    want := map[];
    for i := 0 to |resources|
      invariant want == ByName(nameOf, resources[..i])
    {
      assert resources[..i + 1][..i] == resources[..i];
      want := want[nameOf(resources[i]) := resources[i]];
    }
    assert resources[..|resources|] == resources;
  }

  /** Maps are visited in an arbitrary order, as Go does. */
  method Reconcile<R, S>(nameOf: R -> string, compare: (R, S) -> bool, resources: seq<R>, states: map<string, S>)
    returns (actions: seq<Action<R, S>>)
    ensures Settles(compare, ByName(nameOf, resources), states, actions)
  {
    var want := IndexByName(nameOf, resources);
    actions := [];
    var todo := want.Keys;
    while todo != {}
      invariant todo <= want.Keys
      invariant Covers(compare, want, states, want.Keys - todo, actions)
      invariant forall i :: 0 <= i < |actions| ==> actions[i].typ != ActionRemove
    {
      var n :| n in todo;
      CoversOneMore(compare, want, states, want.Keys - todo, actions, n);
      assert want.Keys - todo + {n} == want.Keys - (todo - {n});
      todo := todo - {n};
      if n !in states {
        actions := actions + [Action(ActionInstall, n, Some(want[n]), None)];
      } else if compare(want[n], states[n]) {
        actions := actions + [Action(ActionUpgrade, n, Some(want[n]), Some(states[n]))];
      }
    }
    actions := AddRemovals(compare, want, states, actions);
  }

  /** The second loop of Reconcile: recorded names that are no longer wanted. */
  method AddRemovals<R, S>(ghost compare: (R, S) -> bool, want: map<string, R>, states: map<string, S>,
                           first: seq<Action<R, S>>)
    returns (actions: seq<Action<R, S>>)
    requires Covers(compare, want, states, want.Keys, first)
    requires forall i :: 0 <= i < |first| ==> first[i].typ != ActionRemove
    ensures Settles(compare, want, states, actions)
  {
    actions := first;
    var todo := states.Keys;
    ghost var seen := want.Keys;
    assert RemovalsLast(actions);
    while todo != {}
      invariant seen == want.Keys + (states.Keys - todo)
      invariant todo <= states.Keys
      invariant Covers(compare, want, states, seen, actions)
      invariant RemovalsLast(actions)
    {
      var n :| n in todo;
      todo := todo - {n};
      if n !in want {
        CoversOneMore(compare, want, states, seen, actions, n);
        actions := actions + [Action(ActionRemove, n, None, Some(states[n]))];
      }
      seen := seen + {n};
    }
    assert seen == want.Keys + states.Keys;
  }

  /** Reconciling everything at once gives a desired name the action that reconciling it alone,
      against its own entry alone, gives; every other recorded name is owed a removal. */
  lemma Decomposes<R, S>(compare: (R, S) -> bool, want: map<string, R>, states: map<string, S>, n: string)
    ensures n in want ==>
      var alone := if n in states then map[n := states[n]] else map[];
      Owed(compare, want, states, n) == Owed(compare, map[n := want[n]], alone, n)
    ensures n !in want ==>
      (Owed(compare, want, states, n).Some? <==> n in states)
  {
  }

  /** Two answers for the same question hold the same actions, whatever order the maps gave. */
  lemma OrderIrrelevant<R(!new), S(!new)>(compare: (R, S) -> bool, want: map<string, R>, states: map<string, S>,
                                          a: seq<Action<R, S>>, b: seq<Action<R, S>>)
    requires Settles(compare, want, states, a) && Settles(compare, want, states, b)
    ensures forall x :: x in a <==> x in b
    ensures |a| == |b|
  {
    forall x | x in a ensures x in b { Contained(compare, want, states, a, b, x); }
    forall x | x in b ensures x in a { Contained(compare, want, states, b, a, x); }
    var sa, sb := set x | x in a, set x | x in b;
    assert sa == sb;
    DistinctCount(a);
    DistinctCount(b);
  }

  lemma Contained<R, S>(compare: (R, S) -> bool, want: map<string, R>, states: map<string, S>, a: seq<Action<R, S>>,
                        b: seq<Action<R, S>>, x: Action<R, S>)
    requires Settles(compare, want, states, a) && Settles(compare, want, states, b) && x in a
    ensures x in b
  {
  }

  lemma {:induction false} DistinctCount<R, S>(a: seq<Action<R, S>>)
    requires forall i, j :: 0 <= i < j < |a| ==> a[i].name != a[j].name
    ensures |set x | x in a| == |a|
  {
    var s := set x | x in a;
    if a != [] {
      var n := |a| - 1;
      DistinctCount(a[..n]);
      var t := set x | x in a[..n];
      assert s == t + {a[n]};
      assert a[n] !in t;
    }
  }
}
