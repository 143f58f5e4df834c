/** Panes and the processes in them, and the loops that make them match a stack. */
module StackSyncs {
  import opened Basics
  import opened Processes
  import opened Sieve

  type PaneId = nat

  /** A process's definition; `key` is its name in the form names are matched by. */
  datatype Spec = Spec(name: string, key: string, definition: string)

  datatype Process = Process(id: PaneId, state: ProcessState, spec: Spec)

  // ----- what a sync should come to -----

  /** The first process of that key. */
  function First(processes: seq<Process>, key: string): (i: Option<nat>)
    ensures i.None? ==> forall k :: 0 <= k < |processes| ==> processes[k].spec.key != key
    ensures i.Some? ==>
      && i.value < |processes| && processes[i.value].spec.key == key
      && forall k :: 0 <= k < i.value ==> processes[k].spec.key != key
    decreases |processes|
  {
    if processes == [] then None
    else if processes[0].spec.key == key then Some(0)
    else
      var rest := First(processes[1..], key);
      if rest.None? then None else Some(rest.value + 1)
  }

  /** One past the largest pane id. */
  function NextId(processes: seq<Process>): (n: nat)
    ensures forall k :: 0 <= k < |processes| ==> processes[k].id < n
    ensures n == 0 || exists k :: 0 <= k < |processes| && processes[k].id == n - 1
    decreases |processes|
  {
    if processes == [] then 0
    else
      var front, last := NextId(processes[..|processes| - 1]), processes[|processes| - 1].id;
      if last >= front then last + 1 else front
  }

  ghost predicate Repeats(stack: seq<Spec>, j: nat)
    requires j < |stack|
  {
    exists k :: 0 <= k < j && stack[k].key == stack[j].key
  }

  /** The old process that carries on as the stack's `j`th: the first of its key, unless the stack
      named that key before. */
  ghost function Keeper(before: seq<Process>, stack: seq<Spec>, j: nat): Option<nat>
    requires j < |stack|
  {
    if Repeats(stack, j) then None else First(before, stack[j].key)
  }

  /** How many of the stack's first `n` are new. */
  ghost function NewAmong(before: seq<Process>, stack: seq<Spec>, n: nat): nat
    requires n <= |stack|
  {
    if n == 0 then 0
    else NewAmong(before, stack, n - 1) + (if Keeper(before, stack, n - 1).None? then 1 else 0)
  }

  /** The stack's `j`th process: an old one under its new definition, or a new one in a pane of its
      own. */
  ghost function Placed(before: seq<Process>, stack: seq<Spec>, j: nat): Process
    requires j < |stack|
  {
    match Keeper(before, stack, j)
    case Some(i) => before[i].(spec := stack[j])
    case None => Process(NextId(before) + NewAmong(before, stack, j), Pending, stack[j])
  }

  /** The panes that carry on. */
  ghost function KeptPanes(before: seq<Process>, stack: seq<Spec>, n: nat): set<PaneId>
    requires n <= |stack|
  {
    set j | 0 <= j < n && Keeper(before, stack, j).Some? :: before[Keeper(before, stack, j).value].id
  }

  /** The processes outside `kept` whose liveness is `alive`, in order. */
  function Rest(processes: seq<Process>, kept: set<PaneId>, live: PaneId -> bool, alive: bool): seq<Process>
    decreases |processes|
  {
    if processes == [] then []
    else
      var last := processes[|processes| - 1];
      Rest(processes[..|processes| - 1], kept, live, alive)
        + (if last.id !in kept && live(last.id) == alive then [last] else [])
  }

  function Ids(processes: seq<Process>): seq<PaneId> {
    seq(|processes|, i requires 0 <= i < |processes| => processes[i].id)
  }

  /** `count` panes, one after another from `first`. */
  ghost predicate Consecutive(panes: seq<PaneId>, first: PaneId, count: nat) {
    |panes| == count && forall k :: 0 <= k < count ==> panes[k] == first + k
  }

  datatype Sync = Sync(workspace: seq<Process>, added: seq<PaneId>, retiring: seq<PaneId>, removed: seq<PaneId>)

  /** The difference between a workspace and a stack, said outright. */
  ghost predicate IsDiff(before: seq<Process>, stack: seq<Spec>, live: PaneId -> bool, sync: Sync) {
    var kept := KeptPanes(before, stack, |stack|);
    && |stack| <= |sync.workspace|
    && (forall j :: 0 <= j < |stack| ==> sync.workspace[j] == Placed(before, stack, j))
    && sync.workspace[|stack|..] == Rest(before, kept, live, true)
    && Consecutive(sync.added, NextId(before), NewAmong(before, stack, |stack|))
    && sync.retiring == Ids(Rest(before, kept, live, true))
    && sync.removed == Ids(Rest(before, kept, live, false))
  }

  // ----- the loops that compute it -----

  method IndexByKey(processes: seq<Process>) returns (byKey: map<string, Process>)
    ensures forall key :: key in byKey <==> First(processes, key).Some?
    ensures forall key :: key in byKey ==> byKey[key] == processes[First(processes, key).value]
  {
    hide First, Indexed;
    byKey := map[];
    assert Indexed(processes, 0, byKey) by { NothingIndexed(processes); }
    for n := 0 to |processes|
      invariant Indexed(processes, n, byKey)
    {
      var key := processes[n].spec.key;
      OneMoreIndexed(processes, n, byKey);
      if key !in byKey {
        byKey := byKey[key := processes[n]];
      }
    }
    AllIndexed(processes, byKey);
  }

  /** The first process of each key that has one among the first `n`. */
  ghost predicate Indexed(processes: seq<Process>, n: nat, byKey: map<string, Process>) {
    && (forall key :: key in byKey <==> First(processes, key).Some? && First(processes, key).value < n)
    && (forall key :: key in byKey ==> byKey[key] == processes[First(processes, key).value])
  }

  lemma NothingIndexed(processes: seq<Process>)
    ensures Indexed(processes, 0, map[])
  {
  }

  lemma {:induction false} OneMoreIndexed(processes: seq<Process>, n: nat, byKey: map<string, Process>)
    requires n < |processes| && Indexed(processes, n, byKey)
    ensures var key := processes[n].spec.key;
            Indexed(processes, n + 1, if key in byKey then byKey else byKey[key := processes[n]])
  {
    hide First;
    var key := processes[n].spec.key;
    assert First(processes, key).Some? && First(processes, key).value <= n;
    forall other | First(processes, other) == Some(n) ensures other == key {
    }
  }

  lemma AllIndexed(processes: seq<Process>, byKey: map<string, Process>)
    requires Indexed(processes, |processes|, byKey)
    ensures forall key :: key in byKey <==> First(processes, key).Some?
    ensures forall key :: key in byKey ==> byKey[key] == processes[First(processes, key).value]
  {
    hide First;
  }

  method NextPane(processes: seq<Process>) returns (next: nat)
    ensures next == NextId(processes)
  {
    next := 0;
    for n := 0 to |processes|
      invariant next == NextId(processes[..n])
    {
      assert processes[..n + 1][..n] == processes[..n];
      if processes[n].id + 1 > next {
        next := processes[n].id + 1;
      }
    }
    assert processes[..|processes|] == processes;
  }

  /** The first process of each key the stack's first `n` have not named. */
  ghost predicate Unused(before: seq<Process>, stack: seq<Spec>, n: nat, byKey: map<string, Process>)
    requires n <= |stack|
  {
    && (forall key :: key in byKey <==> First(before, key).Some? && Unnamed(stack, n, key))
    && (forall key :: key in byKey ==> byKey[key] == before[First(before, key).value])
  }

  ghost predicate Unnamed(stack: seq<Spec>, n: nat, key: string)
    requires n <= |stack|
  {
    forall k :: 0 <= k < n ==> stack[k].key != key
  }

  lemma {:induction false} UsedUp(before: seq<Process>, stack: seq<Spec>, n: nat, byKey: map<string, Process>)
    requires n < |stack| && Unused(before, stack, n, byKey)
    ensures Unused(before, stack, n + 1, byKey - {stack[n].key})
  {
    forall key ensures Unnamed(stack, n + 1, key) <==> Unnamed(stack, n, key) && key != stack[n].key {
    }
  }

  /** Where matching the stack has got to after `n` of it. */
  ghost predicate Matching(before: seq<Process>, stack: seq<Spec>, n: nat, byKey: map<string, Process>, nextId: nat,
                           synced: seq<Process>, matched: set<PaneId>, added: seq<PaneId>)
  {
    && n <= |stack| && |synced| == n
    && Unused(before, stack, n, byKey)
    && nextId == NextId(before) + NewAmong(before, stack, n)
    && (forall j :: 0 <= j < n ==> synced[j] == Placed(before, stack, j))
    && matched == KeptPanes(before, stack, n)
    && Consecutive(added, NextId(before), NewAmong(before, stack, n))
  }

  method MatchStack(before: seq<Process>, stack: seq<Spec>)
    returns (synced: seq<Process>, matched: set<PaneId>, added: seq<PaneId>)
    ensures |synced| == |stack| && forall j :: 0 <= j < |stack| ==> synced[j] == Placed(before, stack, j)
    ensures matched == KeptPanes(before, stack, |stack|)
    ensures Consecutive(added, NextId(before), NewAmong(before, stack, |stack|))
  {
    var byKey := IndexByKey(before);
    var nextId := NextPane(before);
    synced, matched, added := [], {}, [];
    NothingMatched(before, stack, byKey);
    hide First, KeptPanes, Keeper, NextId, Unused, Placed, NewAmong;
    for n := 0 to |stack|
      invariant Matching(before, stack, n, byKey, nextId, synced, matched, added)
    {
      var spec := stack[n];
      if spec.key in byKey {
        CarriedOn(before, stack, n, byKey, nextId, synced, matched, added);
        var process := byKey[spec.key].(spec := spec);
        byKey := byKey - {spec.key};
        matched := matched + {process.id};
        synced := synced + [process];
      } else {
        Added(before, stack, n, byKey, nextId, synced, matched, added);
        added := added + [nextId];
        synced := synced + [Process(nextId, Pending, spec)];
        nextId := nextId + 1;
      }
    }
  }

  lemma NothingMatched(before: seq<Process>, stack: seq<Spec>, byKey: map<string, Process>)
    requires forall key :: key in byKey <==> First(before, key).Some?
    requires forall key :: key in byKey ==> byKey[key] == before[First(before, key).value]
    ensures Matching(before, stack, 0, byKey, NextId(before), [], {}, [])
  {
  }

  /** The `n`th of the stack carries a process on exactly when the index still has its key. */
  lemma {:induction false} IndexFindsKeeper(before: seq<Process>, stack: seq<Spec>, n: nat,
          byKey: map<string, Process>, nextId: nat, synced: seq<Process>, matched: set<PaneId>, added: seq<PaneId>)
    requires n < |stack| && Matching(before, stack, n, byKey, nextId, synced, matched, added)
    ensures stack[n].key in byKey <==> Keeper(before, stack, n).Some?
    ensures stack[n].key in byKey ==> byKey[stack[n].key] == before[Keeper(before, stack, n).value]
    ensures stack[n].key in byKey ==>
      && Placed(before, stack, n) == byKey[stack[n].key].(spec := stack[n])
      && NewAmong(before, stack, n + 1) == NewAmong(before, stack, n)
      && KeptPanes(before, stack, n + 1) == KeptPanes(before, stack, n) + {byKey[stack[n].key].id}
    ensures stack[n].key !in byKey ==>
      && Placed(before, stack, n) == Process(nextId, Pending, stack[n])
      && NewAmong(before, stack, n + 1) == NewAmong(before, stack, n) + 1
      && KeptPanes(before, stack, n + 1) == KeptPanes(before, stack, n)
  {
    hide NextId, Consecutive, First;
    assert Repeats(stack, n) <==> !Unnamed(stack, n, stack[n].key);
  }

  lemma {:induction false} CarriedOn(before: seq<Process>, stack: seq<Spec>, n: nat, byKey: map<string, Process>,
          nextId: nat, synced: seq<Process>, matched: set<PaneId>, added: seq<PaneId>)
    requires n < |stack| && Matching(before, stack, n, byKey, nextId, synced, matched, added) && stack[n].key in byKey
    ensures var process := byKey[stack[n].key].(spec := stack[n]);
      Matching(before, stack, n + 1, byKey - {stack[n].key}, nextId, synced + [process], matched + {process.id}, added)
  {
    hide First, KeptPanes, Keeper, NextId, Unused, Placed, NewAmong, Consecutive;
    IndexFindsKeeper(before, stack, n, byKey, nextId, synced, matched, added);
    UsedUp(before, stack, n, byKey);
  }

  lemma {:induction false} Added(before: seq<Process>, stack: seq<Spec>, n: nat, byKey: map<string, Process>,
          nextId: nat, synced: seq<Process>, matched: set<PaneId>, added: seq<PaneId>)
    requires n < |stack| && Matching(before, stack, n, byKey, nextId, synced, matched, added) && stack[n].key !in byKey
    ensures Matching(before, stack, n + 1, byKey, nextId + 1, synced + [Process(nextId, Pending, stack[n])],
                     matched, added + [nextId])
  {
    hide First, KeptPanes, Keeper, NextId, Unused, Placed, NewAmong;
    IndexFindsKeeper(before, stack, n, byKey, nextId, synced, matched, added);
    UsedUp(before, stack, n, byKey);
    assert byKey - {stack[n].key} == byKey;
  }

  method SplitRest(before: seq<Process>, matched: set<PaneId>, live: PaneId -> bool)
    returns (kept: seq<Process>, retiring: seq<PaneId>, removed: seq<PaneId>)
    ensures kept == Rest(before, matched, live, true)
    ensures retiring == Ids(Rest(before, matched, live, true)) && removed == Ids(Rest(before, matched, live, false))
  {
    kept, retiring, removed := [], [], [];
    for n := 0 to |before|
      invariant kept == Rest(before[..n], matched, live, true) && retiring == Ids(kept)
      invariant removed == Ids(Rest(before[..n], matched, live, false))
    {
      assert before[..n + 1][..n] == before[..n];
      var process := before[n];
      if process.id !in matched {
        if live(process.id) {
          retiring := retiring + [process.id];
          kept := kept + [process];
        } else {
          removed := removed + [process.id];
        }
      }
    }
    assert before[..|before|] == before;
  }

  /** Syncs a workspace to a stack. */
  method Apply(processes: seq<Process>, stack: seq<Spec>, live: PaneId -> bool) returns (sync: Sync)
    ensures IsDiff(processes, stack, live, sync)
  {
    var synced, matched, added := MatchStack(processes, stack);
    var kept, retiring, removed := SplitRest(processes, matched, live);
    sync := Sync(synced + kept, added, retiring, removed);
  }

  // ----- what that means -----

  /** A process carries on under a definition: same pane, same state, the first there was of that key. */
  ghost predicate CarriesOn(before: seq<Process>, i: int, process: Process) {
    && 0 <= i < |before| && process.id == before[i].id && process.state == before[i].state
    && process.spec.key == before[i].spec.key && forall k :: 0 <= k < i ==> before[k].spec.key != process.spec.key
  }

  /** A synced workspace starts with the stack's definitions, in order. The first of each key carries on
      the process that had it, if one did; any other is pending, in a pane above all old ones and
      above those of the new ones ahead of it. */
  lemma {:induction false} SyncedFollowsStack(before: seq<Process>, stack: seq<Spec>, live: PaneId -> bool, sync: Sync,
          j: nat)
    requires IsDiff(before, stack, live, sync) && j < |stack|
    ensures var process := sync.workspace[j];
            var first := forall k :: 0 <= k < j ==> stack[k].key != stack[j].key;
            && process.spec == stack[j]
            && if first && exists i :: 0 <= i < |before| && before[i].spec.key == stack[j].key
               then exists i :: CarriesOn(before, i, process)
               else
                 && process.state == Pending && (forall i :: 0 <= i < |before| ==> before[i].id < process.id)
                 && forall k :: 0 <= k < j && sync.workspace[k].id !in PanesOf(Ids(before)) ==>
                      sync.workspace[k].id < process.id
  {
    hide First, NextId, Rest, Consecutive, NewAmong;
    var process, keeper := sync.workspace[j], Keeper(before, stack, j);
    assert process == Placed(before, stack, j);
    if keeper.Some? {
      assert CarriesOn(before, keeper.value, process);
    } else {
      forall k | 0 <= k < j && Keeper(before, stack, k).Some? ensures sync.workspace[k].id in PanesOf(Ids(before)) {
        KeeperIsOld(before, stack, k);
      }
      forall k | 0 <= k < j && Keeper(before, stack, k).None? ensures sync.workspace[k].id < process.id {
        NewAmongGrows(before, stack, k, j);
      }
    }
  }

  lemma {:induction false} KeeperIsOld(before: seq<Process>, stack: seq<Spec>, k: nat)
    requires k < |stack| && Keeper(before, stack, k).Some?
    ensures Placed(before, stack, k).id in PanesOf(Ids(before))
  {
    assert Ids(before)[Keeper(before, stack, k).value] == Placed(before, stack, k).id;
  }

  /** Which processes are outside `kept` and live, or not. */
  function Outside(processes: seq<Process>, kept: set<PaneId>, live: PaneId -> bool, alive: bool): (mask: seq<bool>)
    ensures |mask| == |processes|
  {
    seq(|processes|, i requires 0 <= i < |processes| => processes[i].id !in kept && live(processes[i].id) == alive)
  }

  lemma {:induction false} NewAt(before: seq<Process>, stack: seq<Spec>, n: nat, count: nat) returns (j: nat)
    requires n <= |stack| && count < NewAmong(before, stack, n)
    ensures j < n && Keeper(before, stack, j).None? && NewAmong(before, stack, j) == count
    decreases n
  {
    hide Keeper;
    if Keeper(before, stack, n - 1).None? && NewAmong(before, stack, n - 1) == count {
      j := n - 1;
    } else {
      j := NewAt(before, stack, n - 1, count);
    }
  }

  /** The panes added are exactly those of the stack's processes that no process had before. */
  lemma {:induction false} AddedAreNew(before: seq<Process>, stack: seq<Spec>, live: PaneId -> bool, sync: Sync,
          pane: PaneId)
    requires IsDiff(before, stack, live, sync)
    ensures pane in sync.added <==>
      pane !in PanesOf(Ids(before)) && exists j :: 0 <= j < |stack| && sync.workspace[j].id == pane
  {
    hide Rest, KeptPanes, NewAmong, First;
    var next := NextId(before);
    if pane in sync.added {
      var k :| 0 <= k < |sync.added| && sync.added[k] == pane;
      var j := NewAt(before, stack, |stack|, k);
      assert sync.workspace[j] == Placed(before, stack, j);
    }
    if pane !in PanesOf(Ids(before)) && exists j :: 0 <= j < |stack| && sync.workspace[j].id == pane {
      var j :| 0 <= j < |stack| && sync.workspace[j].id == pane;
      assert sync.workspace[j] == Placed(before, stack, j);
      NewIsAdded(before, stack, j, sync.added);
    }
  }

  lemma {:induction false} NewIsAdded(before: seq<Process>, stack: seq<Spec>, j: nat, added: seq<PaneId>)
    requires j < |stack| && Consecutive(added, NextId(before), NewAmong(before, stack, |stack|))
    ensures Placed(before, stack, j).id in PanesOf(Ids(before)) || Placed(before, stack, j).id in added
  {
    hide First, NextId, NewAmong;
    if Keeper(before, stack, j).Some? {
      KeeperIsOld(before, stack, j);
    } else {
      NewAmongGrows(before, stack, j, |stack|);
      assert added[NewAmong(before, stack, j)] == Placed(before, stack, j).id;
    }
  }

  /** After the stack come exactly the old processes that it does not carry on and that are live, in
      their old order; the rest are removed, in theirs. */
  lemma {:induction false} RestFollowsInOrder(before: seq<Process>, stack: seq<Spec>, live: PaneId -> bool, sync: Sync)
    requires IsDiff(before, stack, live, sync)
    ensures var kept := set j | 0 <= j < |stack| :: sync.workspace[j].id;
            && sync.workspace[|stack|..] == Kept(before, Outside(before, kept, live, true))
            && sync.retiring == Ids(Kept(before, Outside(before, kept, live, true)))
            && sync.removed == Ids(Kept(before, Outside(before, kept, live, false)))
  {
    hide Rest, Consecutive, Placed, Outside, KeptPanes, Kept;
    var kept := set j | 0 <= j < |stack| :: sync.workspace[j].id;
    var panes := KeptPanes(before, stack, |stack|);
    forall i | 0 <= i < |before| ensures before[i].id in kept <==> before[i].id in panes {
      KeptIfOld(before, stack, live, sync, i);
    }
    RestIsKept(before, panes, live, true, kept);
    RestIsKept(before, panes, live, false, kept);
  }

  lemma {:induction false} KeptIfOld(before: seq<Process>, stack: seq<Spec>, live: PaneId -> bool, sync: Sync, i: nat)
    requires IsDiff(before, stack, live, sync) && i < |before|
    ensures before[i].id in KeptPanes(before, stack, |stack|) <==>
      exists j :: 0 <= j < |stack| && sync.workspace[j].id == before[i].id
  {
    hide First, Rest, Consecutive, NewAmong;
    forall j | 0 <= j < |stack| ensures sync.workspace[j] == Placed(before, stack, j) {
    }
    if before[i].id in KeptPanes(before, stack, |stack|) {
      var j :| 0 <= j < |stack| && Keeper(before, stack, j).Some?
               && before[Keeper(before, stack, j).value].id == before[i].id;
      assert sync.workspace[j].id == before[i].id;
    }
    if j :| 0 <= j < |stack| && sync.workspace[j].id == before[i].id {
      assert Keeper(before, stack, j).Some?;
    }
  }

  lemma {:induction false} RestIsKept(processes: seq<Process>, panes: set<PaneId>, live: PaneId -> bool, alive: bool,
          kept: set<PaneId>)
    requires forall i :: 0 <= i < |processes| ==> (processes[i].id in kept <==> processes[i].id in panes)
    ensures Rest(processes, panes, live, alive) == Kept(processes, Outside(processes, kept, live, alive))
    decreases |processes|
  {
    if processes != [] {
      var last := |processes| - 1;
      RestIsKept(processes[..last], panes, live, alive, kept);
      assert Outside(processes, kept, live, alive)[..last] == Outside(processes[..last], kept, live, alive);
    }
  }

  // ----- what a sync keeps -----

  ghost predicate DistinctIds(processes: seq<Process>) {
    forall i, j :: 0 <= i < j < |processes| ==> processes[i].id != processes[j].id
  }

  ghost predicate DistinctKeys(stack: seq<Spec>) {
    forall i, j :: 0 <= i < j < |stack| ==> stack[i].key != stack[j].key
  }

  lemma {:induction false} RestIs(processes: seq<Process>, kept: set<PaneId>, live: PaneId -> bool, alive: bool)
    ensures forall p :: p in Rest(processes, kept, live, alive) <==>
      p in processes && p.id !in kept && live(p.id) == alive
    decreases |processes|
  {
    if processes != [] {
      RestIs(processes[..|processes| - 1], kept, live, alive);
      assert processes == processes[..|processes| - 1] + [processes[|processes| - 1]];
    }
  }

  lemma {:induction false} RestDistinct(processes: seq<Process>, kept: set<PaneId>, live: PaneId -> bool, alive: bool)
    requires DistinctIds(processes)
    ensures DistinctIds(Rest(processes, kept, live, alive))
    decreases |processes|
  {
    if processes != [] {
      var front, last := processes[..|processes| - 1], processes[|processes| - 1];
      RestDistinct(front, kept, live, alive);
      RestIs(front, kept, live, alive);
      forall i | 0 <= i < |Rest(front, kept, live, alive)| ensures Rest(front, kept, live, alive)[i].id != last.id {
        assert Rest(front, kept, live, alive)[i] in front;
        var k :| 0 <= k < |front| && front[k] == Rest(front, kept, live, alive)[i];
        assert processes[k] == front[k];
      }
    }
  }

  lemma {:induction false} NewAmongGrows(before: seq<Process>, stack: seq<Spec>, j: nat, n: nat)
    requires j < n <= |stack|
    ensures NewAmong(before, stack, j) + (if Keeper(before, stack, j).None? then 1 else 0) <= NewAmong(before, stack, n)
    decreases n
  {
    if j < n - 1 {
      NewAmongGrows(before, stack, j, n - 1);
    }
  }

  /** Every pane that carries on is an old one's, and no two of the stack share it. */
  lemma {:induction false} KeepersDiffer(before: seq<Process>, stack: seq<Spec>, i: nat, j: nat)
    requires DistinctIds(before) && i < j < |stack|
    ensures Placed(before, stack, i).id != Placed(before, stack, j).id
  {
    var first, second := Keeper(before, stack, i), Keeper(before, stack, j);
    NewAmongGrows(before, stack, i, j);
    if first.Some? && second.Some? {
      assert stack[i].key != stack[j].key;
      assert before[first.value].spec.key != before[second.value].spec.key;
    }
  }

  lemma {:induction false} RestApart(before: seq<Process>, stack: seq<Spec>, live: PaneId -> bool, alive: bool, j: nat,
          k: nat)
    requires j < |stack| && k < |Rest(before, KeptPanes(before, stack, |stack|), live, alive)|
    ensures Placed(before, stack, j).id != Rest(before, KeptPanes(before, stack, |stack|), live, alive)[k].id
  {
    var kept := KeptPanes(before, stack, |stack|);
    RestIs(before, kept, live, alive);
    var rest := Rest(before, kept, live, alive)[k];
    assert rest in before;
    if Keeper(before, stack, j).Some? {
      assert before[Keeper(before, stack, j).value].id in kept;
    }
  }

  /** Panes stay distinct: a sync never gives two processes one pane. */
  lemma {:induction false} SyncKeepsPanesDistinct(before: seq<Process>, stack: seq<Spec>, live: PaneId -> bool,
          sync: Sync)
    requires DistinctIds(before) && IsDiff(before, stack, live, sync)
    ensures DistinctIds(sync.workspace)
  {
    var rest := Rest(before, KeptPanes(before, stack, |stack|), live, true);
    RestDistinct(before, KeptPanes(before, stack, |stack|), live, true);
    forall i, j | 0 <= i < j < |sync.workspace| ensures sync.workspace[i].id != sync.workspace[j].id {
      assert i >= |stack| ==> sync.workspace[i] == rest[i - |stack|];
      assert j >= |stack| ==> sync.workspace[j] == rest[j - |stack|];
      if j < |stack| {
        KeepersDiffer(before, stack, i, j);
      } else if i < |stack| {
        RestApart(before, stack, live, true, i, j - |stack|);
      }
    }
  }

  function PanesOf(ids: seq<PaneId>): set<PaneId> {
    set i | 0 <= i < |ids| :: ids[i]
  }

  lemma {:induction false} IdsOfRest(processes: seq<Process>, kept: set<PaneId>, live: PaneId -> bool, alive: bool,
          pane: PaneId)
    ensures pane in PanesOf(Ids(Rest(processes, kept, live, alive))) <==>
      pane in PanesOf(Ids(processes)) && pane !in kept && live(pane) == alive
  {
    RestIs(processes, kept, live, alive);
    var rest := Rest(processes, kept, live, alive);
    if pane in PanesOf(Ids(rest)) {
      var i :| 0 <= i < |rest| && Ids(rest)[i] == pane;
      assert rest[i] in processes;
      var k :| 0 <= k < |processes| && processes[k] == rest[i];
      assert Ids(processes)[k] == pane;
    }
    if pane in PanesOf(Ids(processes)) && pane !in kept && live(pane) == alive {
      var k :| 0 <= k < |processes| && Ids(processes)[k] == pane;
      assert processes[k] in rest;
      var i :| 0 <= i < |rest| && rest[i] == processes[k];
      assert Ids(rest)[i] == pane;
    }
  }

  /** Each old pane is exactly one of kept, retiring and removed: retiring ones are live, removed
      ones are not; and every added pane is above every old one. */
  lemma {:induction false} SyncSplitsOldPanes(before: seq<Process>, stack: seq<Spec>, live: PaneId -> bool, sync: Sync)
    requires IsDiff(before, stack, live, sync)
    ensures var kept := KeptPanes(before, stack, |stack|);
            && PanesOf(Ids(before)) == kept + PanesOf(sync.retiring) + PanesOf(sync.removed)
            && kept !! PanesOf(sync.retiring) && kept !! PanesOf(sync.removed)
            && PanesOf(sync.retiring) !! PanesOf(sync.removed)
            && (forall pane :: pane in PanesOf(sync.retiring) ==> live(pane))
            && (forall pane :: pane in PanesOf(sync.removed) ==> !live(pane))
            && (forall pane :: pane in kept ==> exists j :: 0 <= j < |stack| && sync.workspace[j].id == pane)
    ensures forall a, i :: 0 <= a < |sync.added| && 0 <= i < |before| ==> before[i].id < sync.added[a]
  {
    var kept := KeptPanes(before, stack, |stack|);
    forall pane
      ensures pane in PanesOf(sync.retiring) <==> pane in PanesOf(Ids(before)) && pane !in kept && live(pane)
      ensures pane in PanesOf(sync.removed) <==> pane in PanesOf(Ids(before)) && pane !in kept && !live(pane)
    {
      IdsOfRest(before, kept, live, true, pane);
      IdsOfRest(before, kept, live, false, pane);
    }
    forall pane | pane in kept
      ensures pane in PanesOf(Ids(before)) && exists j :: 0 <= j < |stack| && sync.workspace[j].id == pane
    {
      var j :| 0 <= j < |stack| && Keeper(before, stack, j).Some? && before[Keeper(before, stack, j).value].id == pane;
      assert Ids(before)[Keeper(before, stack, j).value] == pane;
      assert sync.workspace[j].id == pane;
    }
  }

  // ----- syncing twice -----

  lemma {:induction false} RestOfConcat(a: seq<Process>, b: seq<Process>, kept: set<PaneId>, live: PaneId -> bool,
          alive: bool)
    ensures Rest(a + b, kept, live, alive) == Rest(a, kept, live, alive) + Rest(b, kept, live, alive)
    decreases |b|
  {
    if b == [] {
      assert a + b == a;
    } else {
      RestOfConcat(a, b[..|b| - 1], kept, live, alive);
      assert (a + b)[..|a + b| - 1] == a + b[..|b| - 1];
    }
  }

  lemma {:induction false} RestOfKept(processes: seq<Process>, kept: set<PaneId>, live: PaneId -> bool, alive: bool)
    requires forall i :: 0 <= i < |processes| ==> processes[i].id in kept
    ensures Rest(processes, kept, live, alive) == []
    decreases |processes|
  {
    if processes != [] {
      RestOfKept(processes[..|processes| - 1], kept, live, alive);
    }
  }

  /** Everything outside `kept` that is live is all of it. */
  lemma {:induction false} RestOfLive(processes: seq<Process>, kept: set<PaneId>, live: PaneId -> bool)
    requires forall i :: 0 <= i < |processes| ==> processes[i].id !in kept
    ensures Rest(processes, kept, live, true) == processes <==>
      forall i :: 0 <= i < |processes| ==> live(processes[i].id)
    decreases |processes|
  {
    if forall i :: 0 <= i < |processes| ==> live(processes[i].id) {
      if processes != [] {
        var front, last := processes[..|processes| - 1], processes[|processes| - 1];
        RestOfLive(front, kept, live);
        assert processes == front + [last];
      }
    } else {
      hide Rest;
      var i :| 0 <= i < |processes| && !live(processes[i].id);
      RestIs(processes, kept, live, true);
      assert processes[i] in processes && processes[i] !in Rest(processes, kept, live, true);
    }
  }

  /** In a workspace just synced to a stack of distinct keys, the stack's `j`th is the first of its key. */
  lemma {:induction false} SyncedIsFirst(stack: seq<Spec>, workspace: seq<Process>, j: nat)
    requires DistinctKeys(stack) && j < |stack| <= |workspace|
    requires forall k :: 0 <= k < |stack| ==> workspace[k].spec == stack[k]
    ensures Keeper(workspace, stack, j) == Some(j)
  {
    var first := First(workspace, stack[j].key);
    assert workspace[j].spec.key == stack[j].key;
    assert first.Some? && first.value <= j;
  }

  lemma {:induction false} NothingNew(stack: seq<Spec>, workspace: seq<Process>, n: nat)
    requires DistinctKeys(stack) && n <= |stack| <= |workspace|
    requires forall k :: 0 <= k < |stack| ==> workspace[k].spec == stack[k]
    ensures NewAmong(workspace, stack, n) == 0
    decreases n
  {
    if n > 0 {
      NothingNew(stack, workspace, n - 1);
      SyncedIsFirst(stack, workspace, n - 1);
    }
  }

  /** Syncing again to the same stack adds nothing exactly when the stack names no key twice; it then
      changes no process of the stack, and leaves the workspace as it is exactly when every
      retiring pane is still live. */
  lemma {:induction false} SyncTwice(before: seq<Process>, stack: seq<Spec>, live: PaneId -> bool, once: Sync,
          live': PaneId -> bool, twice: Sync)
    requires DistinctIds(before) && IsDiff(before, stack, live, once) && IsDiff(once.workspace, stack, live', twice)
    ensures twice.added == [] <==> DistinctKeys(stack)
    ensures DistinctKeys(stack) ==> forall j :: 0 <= j < |stack| ==> twice.workspace[j] == once.workspace[j]
    ensures DistinctKeys(stack) ==>
      (twice.workspace == once.workspace <==> forall i :: 0 <= i < |once.retiring| ==> live'(once.retiring[i]))
  {
    var workspace := once.workspace;
    assert forall k :: 0 <= k < |stack| ==> workspace[k].spec == stack[k];
    if DistinctKeys(stack) {
      NothingNew(stack, workspace, |stack|);
      forall j | 0 <= j < |stack| ensures twice.workspace[j] == workspace[j] && Keeper(workspace, stack, j) == Some(j) {
        SyncedIsFirst(stack, workspace, j);
      }
      SyncedRest(before, stack, live, once, live', twice);
    } else {
      var i, j :| 0 <= i < j < |stack| && stack[i].key == stack[j].key;
      assert Repeats(stack, j);
      NewAmongGrows(workspace, stack, j, |stack|);
    }
  }

  /** The panes that carry on in a second sync are the stack's own; the retiring are none of them. */
  lemma {:induction false} RetiringApart(stack: seq<Spec>, workspace: seq<Process>)
    requires DistinctIds(workspace) && |stack| <= |workspace|
    requires forall j :: 0 <= j < |stack| ==> Keeper(workspace, stack, j) == Some(j)
    ensures forall i :: 0 <= i < |workspace| ==>
      (workspace[i].id in KeptPanes(workspace, stack, |stack|) <==> i < |stack|)
  {
    var kept := KeptPanes(workspace, stack, |stack|);
    forall i | 0 <= i < |stack| ensures workspace[i].id in kept {
      assert workspace[Keeper(workspace, stack, i).value].id in kept;
    }
  }

  lemma {:induction false} RestOfSynced(synced: seq<Process>, rest: seq<Process>, kept: set<PaneId>,
          live: PaneId -> bool)
    requires forall i :: 0 <= i < |synced| ==> synced[i].id in kept
    requires forall i :: 0 <= i < |rest| ==> rest[i].id !in kept
    ensures Rest(synced + rest, kept, live, true) == rest <==> forall i :: 0 <= i < |rest| ==> live(rest[i].id)
  {
    RestOfConcat(synced, rest, kept, live, true);
    RestOfKept(synced, kept, live, true);
    RestOfLive(rest, kept, live);
    assert [] + Rest(rest, kept, live, true) == Rest(rest, kept, live, true);
  }

  lemma {:induction false} SyncedRest(before: seq<Process>, stack: seq<Spec>, live: PaneId -> bool, once: Sync,
          live': PaneId -> bool, twice: Sync)
    requires DistinctIds(before) && IsDiff(before, stack, live, once) && IsDiff(once.workspace, stack, live', twice)
    requires forall j :: 0 <= j < |stack| ==>
      Keeper(once.workspace, stack, j) == Some(j) && twice.workspace[j] == once.workspace[j]
    ensures twice.workspace == once.workspace <==> forall i :: 0 <= i < |once.retiring| ==> live'(once.retiring[i])
  {
    hide Keeper, KeptPanes, Rest, Placed, NewAmong, NextId, Consecutive, First, DistinctIds;
    var workspace, n := once.workspace, |stack|;
    var synced, rest := workspace[..n], workspace[n..];
    SyncKeepsPanesDistinct(before, stack, live, once);
    RetiringApart(stack, workspace);
    assert workspace == synced + rest;
    RestOfSynced(synced, rest, KeptPanes(workspace, stack, n), live');
    SameTail(twice.workspace, workspace, n);
    assert forall i :: 0 <= i < |rest| ==> once.retiring[i] == rest[i].id;
  }

  lemma {:induction false} SameTail<T>(a: seq<T>, b: seq<T>, n: nat)
    requires n <= |a| && n <= |b| && forall i :: 0 <= i < n ==> a[i] == b[i]
    ensures a == b <==> a[n..] == b[n..]
  {
    assert a == a[..n] + a[n..] && b == b[..n] + b[n..];
    assert a[..n] == b[..n];
  }

  // ----- the workspace over its life -----

  datatype Change =
    | SyncTo(stack: seq<Spec>, live: PaneId -> bool)
    | Push(process: Process)
    | Remove(pane: PaneId)
    | SetState(pane: PaneId, state: ProcessState)

  /** Process `i` owns the pane: the first of its id. */
  ghost predicate Owns(processes: seq<Process>, pane: PaneId, i: int) {
    0 <= i < |processes| && processes[i].id == pane && forall k :: 0 <= k < i ==> processes[k].id != pane
  }

  /** What a change makes of a workspace: the declared diff, or one more process, or the pane's owner
      gone or in its new state, and every other process as it was. */
  ghost predicate Follows(before: seq<Process>, change: Change, after: seq<Process>) {
    match change
    case SyncTo(stack, live) => exists sync :: IsDiff(before, stack, live, sync) && after == sync.workspace
    case Push(process) => after == before + [process]
    case Remove(pane) =>
      && (pane !in PanesOf(Ids(before)) ==> after == before)
      && forall i :: Owns(before, pane, i) ==> after == before[..i] + before[i + 1..]
    case SetState(pane, state) =>
      && (pane !in PanesOf(Ids(before)) ==> after == before)
      && forall i :: Owns(before, pane, i) ==> after == before[i := before[i].(state := state)]
  }

  /** A change pushes no process whose pane has an owner. */
  ghost predicate BringsNoOther(processes: seq<Process>, change: Change) {
    change.Push? ==> change.process.id !in PanesOf(Ids(processes))
  }

  ghost predicate Evolves(states: seq<seq<Process>>, changes: seq<Change>) {
    |states| == |changes| + 1 && forall i :: 0 <= i < |changes| ==> Follows(states[i], changes[i], states[i + 1])
  }

  lemma {:induction false} OwnerAmong(processes: seq<Process>, pane: PaneId) returns (i: nat)
    requires DistinctIds(processes) && pane in PanesOf(Ids(processes))
    ensures Owns(processes, pane, i)
  {
    i :| 0 <= i < |processes| && Ids(processes)[i] == pane;
  }

  /** A change keeps panes distinct exactly when it brings no pane twice. */
  lemma {:induction false} ChangeKeepsPanesDistinct(before: seq<Process>, change: Change, after: seq<Process>)
    requires DistinctIds(before) && Follows(before, change, after)
    ensures DistinctIds(after) <==> BringsNoOther(before, change)
  {
    match change
    case SyncTo(stack, live) =>
      var sync :| IsDiff(before, stack, live, sync) && after == sync.workspace;
      SyncKeepsPanesDistinct(before, stack, live, sync);
    case Push(process) => PushedPane(before, process);
    case Remove(pane) =>
      if pane in PanesOf(Ids(before)) {
        var i := OwnerAmong(before, pane);
        WithoutOne(before, i, after);
      }
    case SetState(pane, state) =>
      if pane in PanesOf(Ids(before)) {
        var i := OwnerAmong(before, pane);
        assert Ids(after) == Ids(before);
        SameIdsDistinct(before, after);
      }
  }

  lemma {:induction false} PushedPane(before: seq<Process>, process: Process)
    requires DistinctIds(before)
    ensures DistinctIds(before + [process]) <==> process.id !in PanesOf(Ids(before))
  {
    var after := before + [process];
    assert after[|before|] == process;
    assert forall i :: 0 <= i < |before| ==> after[i] == before[i] && Ids(before)[i] == after[i].id;
  }

  /** Over any run of changes no two processes ever share a pane exactly when none pushed has one
      that another owns. */
  lemma {:induction false} PanesStayDistinctExactlyWhen(states: seq<seq<Process>>, changes: seq<Change>)
    requires Evolves(states, changes) && DistinctIds(states[0])
    ensures (forall i :: 0 <= i < |states| ==> DistinctIds(states[i]))
       <==> forall i :: 0 <= i < |changes| ==> BringsNoOther(states[i], changes[i])
  {
    hide Follows, DistinctIds, BringsNoOther;
    for n := 0 to |changes|
      invariant (forall i :: 0 <= i <= n ==> DistinctIds(states[i])) <==>
        forall i :: 0 <= i < n ==> BringsNoOther(states[i], changes[i])
    {
      if DistinctIds(states[n]) {
        ChangeKeepsPanesDistinct(states[n], changes[n], states[n + 1]);
      }
    }
  }

  class Workspace {
    var processes: seq<Process>

    constructor (processes: seq<Process>)
      ensures this.processes == processes
    {
      this.processes := processes;
    }

    /** One more process, last. */
    method Push(process: Process)
      modifies this
      ensures processes == old(processes) + [process]
    {
      processes := processes + [process];
    }

    /** Where the pane's owner is. */
    method PositionOf(pane: PaneId) returns (index: Option<nat>)
      ensures index.None? <==> pane !in PanesOf(Ids(processes))
      ensures if index.Some? then Owns(processes, pane, index.value) else forall i :: !Owns(processes, pane, i)
    {
      for i := 0 to |processes|
        invariant forall k :: 0 <= k < i ==> processes[k].id != pane
      {
        if processes[i].id == pane {
          assert Ids(processes)[i] == pane;
          return Some(i);
        }
      }
      index := None;
    }

    /** The pane's owner goes, and no other process. */
    method Remove(pane: PaneId)
      modifies this
      ensures Follows(old(processes), Change.Remove(pane), processes)
      ensures DistinctIds(old(processes)) ==>
        DistinctIds(processes) && PanesOf(Ids(processes)) == PanesOf(Ids(old(processes))) - {pane}
    {
      var index := PositionOf(pane);
      if index.Some? {
        var i := index.value;
        processes := processes[..i] + processes[i + 1..];
        WithoutOne(old(processes), i, processes);
      }
    }

    /** The pane's owner is in the new state, and nothing else changes. */
    method SetState(pane: PaneId, state: ProcessState)
      modifies this
      ensures Follows(old(processes), Change.SetState(pane, state), processes) && Ids(processes) == Ids(old(processes))
    {
      var index := PositionOf(pane);
      if index.Some? {
        processes := processes[index.value := processes[index.value].(state := state)];
      }
    }

    /** Over any run of changes each does what it says. */
    method Run(changes: seq<Change>) returns (ghost states: seq<seq<Process>>)
      modifies this
      ensures Evolves(states, changes) && states[0] == old(processes) && states[|changes|] == processes
      ensures DistinctIds(old(processes)) ==>
        ((forall i :: 0 <= i < |states| ==> DistinctIds(states[i]))
           <==> forall i :: 0 <= i < |changes| ==> BringsNoOther(states[i], changes[i]))
    {
      hide Follows, DistinctIds, BringsNoOther;
      states := [processes];
      for i := 0 to |changes|
        invariant |states| == i + 1 && states[0] == old(processes) && states[i] == processes
        invariant forall k :: 0 <= k < i ==> Follows(states[k], changes[k], states[k + 1])
      {
        Make(changes[i]);
        states := states + [processes];
      }
      if DistinctIds(states[0]) {
        PanesStayDistinctExactlyWhen(states, changes);
      }
    }

    /** One change. */
    method Make(change: Change)
      modifies this
      ensures Follows(old(processes), change, processes)
    {
      match change
      case SyncTo(stack, live) =>
        var sync := Apply(processes, stack, live);
        processes := sync.workspace;
      case Push(process) => Push(process);
      case Remove(pane) => Remove(pane);
      case SetState(pane, state) => SetState(pane, state);
    }
  }

  lemma {:induction false} SameIdsDistinct(before: seq<Process>, after: seq<Process>)
    requires Ids(before) == Ids(after) && DistinctIds(before)
    ensures DistinctIds(after)
  {
    forall i, j | 0 <= i < j < |after| ensures after[i].id != after[j].id {
      assert Ids(before)[i] == Ids(after)[i] && Ids(before)[j] == Ids(after)[j];
    }
  }

  lemma {:induction false} WithoutOne(before: seq<Process>, i: nat, after: seq<Process>)
    requires i < |before| && after == before[..i] + before[i + 1..]
    ensures DistinctIds(before) ==> DistinctIds(after) && PanesOf(Ids(after)) == PanesOf(Ids(before)) - {before[i].id}
  {
    if DistinctIds(before) {
      forall pane ensures pane in PanesOf(Ids(after)) <==> pane in PanesOf(Ids(before)) && pane != before[i].id {
        if pane in PanesOf(Ids(after)) {
          var k :| 0 <= k < |after| && Ids(after)[k] == pane;
          assert Ids(before)[if k < i then k else k + 1] == pane;
        }
        if pane in PanesOf(Ids(before)) && pane != before[i].id {
          var k :| 0 <= k < |before| && Ids(before)[k] == pane;
          assert Ids(after)[if k < i then k else k - 1] == pane;
        }
      }
    }
  }
}
