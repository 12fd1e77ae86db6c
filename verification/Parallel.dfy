/** Grouped parallel execution (ghostchimera/chimera_pilot/executor_parallel.py). */
module Parallel {
  import opened Wrappers

  datatype Task = Task(id: string)

  datatype Execution = Execution(task: Task, ok: bool, error: Option<string>)

  datatype Attempt = Done(execution: Execution) | Raised(error: string)

  /** What the executor makes of a task; it may depend on the group and the place in the group. */
  type Runner = (nat, nat, Task) -> Attempt

  /** When the cancellation token is set; it is never reset.  Check 0 of a group precedes the group
      and check `k + 1` precedes its `k`-th submission. */
  datatype Token = Never | From(group: nat, check: nat) {
    predicate SetAt(g: nat, k: nat) { From? && (group < g || (group == g && check <= k)) }
  }

  type Pair = (int, Execution)

  /** What stands in the results for an attempt: an exception becomes a failed execution. */
  function Settled(a: Attempt, task: Task): Execution {
    match a
    case Done(e) => e
    case Raised(error) => Execution(task, false, Some(error))
  }

  /** The pairs that the first `n` submissions of group `g` produce. */
  function Pairs(tasks: seq<Task>, indices: seq<int>, run: Runner, g: nat, n: nat): (ps: seq<Pair>)
    requires n <= |tasks| == |indices|
    ensures |ps| == n
    ensures forall j :: 0 <= j < n ==> ps[j] == (indices[j], Settled(run(g, j, tasks[j]), tasks[j]))
  {
    if n == 0 then []
    else Pairs(tasks, indices, run, g, n - 1) + [(indices[n - 1], Settled(run(g, n - 1, tasks[n - 1]), tasks[n - 1]))]
  }

  /** How many tasks of a group of `n` are submitted: a group of one always is, a larger group until
      a check finds the token set. */
  function Submitted(n: nat, token: Token, g: nat): (m: nat)
    ensures m <= n
  {
    if n <= 1 || !token.SetAt(g, n) then n else if token.SetAt(g, 1) then 0 else token.check - 1
  }

  /** An empty group asks for a pool of no workers, which raises; a group of one runs without a
      pool and lets its exception out. */
  predicate Escapes(tasks: seq<Task>, run: Runner, g: nat) {
    |tasks| == 0 || (|tasks| == 1 && run(g, 0, tasks[0]).Raised?)
  }

  /** `_execute_group` */
  method ExecuteGroup(tasks: seq<Task>, indices: seq<int>, run: Runner, g: nat, token: Token)
      returns (outcome: Option<seq<Pair>>)
    requires |tasks| == |indices|
    ensures outcome.None? <==> Escapes(tasks, run, g)
    ensures outcome.Some? ==> outcome.value == Pairs(tasks, indices, run, g, Submitted(|tasks|, token, g))
  {
    if |tasks| == 1 {
      match run(g, 0, tasks[0])
      case Done(e) =>
        assert Pairs(tasks, indices, run, g, 1) == [(indices[0], e)];
        return Some([(indices[0], e)]);
      case Raised(error) => return None;
    }
    if |tasks| == 0 { return None; }
    var results := new Option<Pair>[|tasks|](_ => None);
    var futures: seq<Attempt> := [];
    while |futures| < |tasks| && !token.SetAt(g, |futures| + 1)
      invariant |futures| <= Submitted(|tasks|, token, g)
      invariant forall j :: 0 <= j < |futures| ==> futures[j] == run(g, j, tasks[j])
      decreases |tasks| - |futures|
    {
      futures := futures + [run(g, |futures|, tasks[|futures|])];
    }
    for i := 0 to |futures|
      invariant forall j :: 0 <= j < i ==> results[j] == Some((indices[j], Settled(futures[j], tasks[j])))
      invariant forall j :: i <= j < |tasks| ==> results[j] == None
    {
      match futures[i] {
        case Done(e) => results[i] := Some((indices[i], e));
        case Raised(error) => results[i] := Some((indices[i], Execution(tasks[i], false, Some(error))));
      }
    }
    var ordered: seq<Pair> := [];
    for i := 0 to results.Length
      invariant ordered == Pairs(tasks, indices, run, g, if i < |futures| then i else |futures|)
    {
      if results[i].Some? { ordered := ordered + [results[i].value]; }
    }
    outcome := Some(ordered);
  }

  // ---------- the groups ----------

  /** Python indexing: negative indices count from the end. */
  predicate InRange(i: int, n: nat) { 0 - n <= i < n }

  predicate AllInRange(indices: seq<int>, n: nat) { forall j :: 0 <= j < |indices| ==> InRange(indices[j], n) }

  function At(tasks: seq<Task>, i: int): Task
    requires InRange(i, |tasks|)
  {
    if i < 0 then tasks[|tasks| + i] else tasks[i]
  }

  function Select(tasks: seq<Task>, indices: seq<int>): (group: seq<Task>)
    requires AllInRange(indices, |tasks|)
    ensures |group| == |indices| && forall j :: 0 <= j < |group| ==> group[j] == At(tasks, indices[j])
  {
    if indices == [] then []
    else Select(tasks, indices[..|indices| - 1]) + [At(tasks, indices[|indices| - 1])]
  }

  /** Group `g` stops the whole call with an exception. */
  predicate Stops(tasks: seq<Task>, indices: seq<int>, run: Runner, g: nat) {
    !AllInRange(indices, |tasks|) || Escapes(Select(tasks, indices), run, g)
  }

  /** `all_results[index] = execution`, pair by pair. */
  function Merge(all: map<int, Execution>, pairs: seq<Pair>): map<int, Execution> {
    if pairs == [] then all
    else Merge(all, pairs[..|pairs| - 1])[pairs[|pairs| - 1].0 := pairs[|pairs| - 1].1]
  }

  function GroupPairs(tasks: seq<Task>, indices: seq<int>, run: Runner, token: Token, g: nat): seq<Pair> {
    if AllInRange(indices, |tasks|)
    then Pairs(Select(tasks, indices), indices, run, g, Submitted(|indices|, token, g))
    else []
  }

  /** What each group contributes when it runs. */
  function Contributions(tasks: seq<Task>, groups: seq<seq<int>>, run: Runner, token: Token): nat -> seq<Pair> {
    (g: nat) => if g < |groups| then GroupPairs(tasks, groups[g], run, token, g) else []
  }

  /** What the first `n` groups record.  A group runs only if the token is not set before it. */
  function Recorded(parts: nat -> seq<Pair>, token: Token, n: nat): map<int, Execution> {
    if n == 0 then map[]
    else if token.SetAt(n - 1, 0) then Recorded(parts, token, n - 1)
    else Merge(Recorded(parts, token, n - 1), parts(n - 1))
  }

  function RecordedBefore(tasks: seq<Task>, groups: seq<seq<int>>, run: Runner, token: Token, n: nat)
      : map<int, Execution>
  {
    Recorded(Contributions(tasks, groups, run, token), token, n)
  }

  function AllRecorded(tasks: seq<Task>, groups: seq<seq<int>>, run: Runner, token: Token): map<int, Execution> {
    RecordedBefore(tasks, groups, run, token, |groups|)
  }

  /** Neither the token nor an exception stops the call before group `n`. */
  predicate Reaches(tasks: seq<Task>, groups: seq<seq<int>>, run: Runner, token: Token, n: nat)
    requires n <= |groups|
  {
    forall g :: 0 <= g < n ==> !token.SetAt(g, 0) && !Stops(tasks, groups[g], run, g)
  }

  /** No group that the call comes to raises. */
  predicate Completes(tasks: seq<Task>, groups: seq<seq<int>>, run: Runner, token: Token) {
    forall g :: 0 <= g < |groups| && !token.SetAt(g, 0) ==> !Stops(tasks, groups[g], run, g)
  }

  /** One turn of that loop: the group's tasks are looked up and run. */
  method RunGroup(tasks: seq<Task>, indices: seq<int>, run: Runner, g: nat, token: Token)
      returns (outcome: Option<seq<Pair>>)
    ensures outcome.None? <==> Stops(tasks, indices, run, g)
    ensures outcome.Some? ==> outcome.value == GroupPairs(tasks, indices, run, token, g)
  {
    if !AllInRange(indices, |tasks|) { return None; }
    outcome := ExecuteGroup(Select(tasks, indices), indices, run, g, token);
  }

  /** The loop over the groups: each starts when the one before has returned.  `stop` is the group
      it does not get past. */
  method RunGroups(tasks: seq<Task>, groups: seq<seq<int>>, run: Runner, token: Token)
      returns (outcome: Option<map<int, Execution>>, ghost stop: nat)
    ensures stop <= |groups| && Reaches(tasks, groups, run, token, stop)
    ensures outcome.Some? <==> stop == |groups| || token.SetAt(stop, 0)
    ensures outcome.None? ==> Stops(tasks, groups[stop], run, stop)
    ensures outcome.Some? ==> outcome.value == AllRecorded(tasks, groups, run, token)
  {
    hide Stops, GroupPairs, Merge;
    var all: map<int, Execution> := map[];
    var g := 0;
    while g < |groups| && !token.SetAt(g, 0)
      invariant g <= |groups|
      invariant Reaches(tasks, groups, run, token, g)
      invariant all == RecordedBefore(tasks, groups, run, token, g)
    {
      var done := RunGroup(tasks, groups[g], run, g, token);
      if done.None? { return None, g; }
      GroupStep(tasks, groups, run, token, g);
      all := Merge(all, done.value);
      g := g + 1;
    }
    CancelledGroupsRecordNothing(Contributions(tasks, groups, run, token), token, g, |groups|);
    return Some(all), g;
  }

  lemma CompletesIff(tasks: seq<Task>, groups: seq<seq<int>>, run: Runner, token: Token, stop: nat)
    requires stop <= |groups| && Reaches(tasks, groups, run, token, stop)
    requires stop < |groups| && !token.SetAt(stop, 0) ==> Stops(tasks, groups[stop], run, stop)
    ensures Completes(tasks, groups, run, token) <==> stop == |groups| || token.SetAt(stop, 0)
  {
  }

  lemma GroupStep(tasks: seq<Task>, groups: seq<seq<int>>, run: Runner, token: Token, g: nat)
    requires g < |groups| && Reaches(tasks, groups, run, token, g)
    requires !token.SetAt(g, 0) && !Stops(tasks, groups[g], run, g)
    ensures Reaches(tasks, groups, run, token, g + 1)
    ensures RecordedBefore(tasks, groups, run, token, g + 1)
            == Merge(RecordedBefore(tasks, groups, run, token, g), GroupPairs(tasks, groups[g], run, token, g))
  {
    hide Stops, GroupPairs, Merge;
  }

  lemma {:induction false} CancelledGroupsRecordNothing(parts: nat -> seq<Pair>, token: Token, g: nat, n: nat)
    requires g <= n && (g < n ==> token.SetAt(g, 0))
    ensures Recorded(parts, token, n) == Recorded(parts, token, g)
  {
    if g < n { CancelledGroupsRecordNothing(parts, token, g, n - 1); }
  }

  // ---------- the whole call ----------

  datatype ParallelResult = ParallelResult(
    results: seq<Execution>, successes: nat, failures: nat, taskOrder: seq<(nat, Execution)>)

  function Everything(n: nat): seq<int> { seq(n, i => i) }

  /** Without `dependency_order` all tasks form one group. */
  function GroupsOf(tasks: seq<Task>, order: Option<seq<seq<int>>>): seq<seq<int>> {
    if tasks == [] then [] else if order.Some? then order.value else [Everything(|tasks|)]
  }

  function OkCount(es: seq<Execution>): nat {
    if es == [] then 0 else OkCount(es[..|es| - 1]) + (if es[|es| - 1].ok then 1 else 0)
  }

  /** How the result is assembled from the recorded executions: in increasing index, a failure
      counted for every task without a recording. */
  ghost predicate Assembled(tasks: seq<Task>, all: map<int, Execution>, r: ParallelResult) {
    && r.successes + r.failures == |tasks|
    && r.successes == OkCount(r.results)
    && |r.results| == |r.taskOrder|
    && (forall j :: 0 <= j < |r.results| ==>
          && r.taskOrder[j].1 == r.results[j] && r.taskOrder[j].0 < |tasks|
          && r.taskOrder[j].0 in all && all[r.taskOrder[j].0] == r.results[j])
    && (forall j, k :: 0 <= j < k < |r.taskOrder| ==> r.taskOrder[j].0 < r.taskOrder[k].0)
    && (forall i: nat :: i < |tasks| && i in all ==> (i, all[i]) in r.taskOrder)
  }

  /** `execute_tasks_parallel`: it returns exactly when no group it comes to raises. */
  method ExecuteTasksParallel(tasks: seq<Task>, order: Option<seq<seq<int>>>, run: Runner, token: Token)
      returns (outcome: Option<ParallelResult>)
    ensures var groups := GroupsOf(tasks, order);
            && (outcome.Some? <==> Completes(tasks, groups, run, token))
            && (outcome.Some? ==> Assembled(tasks, AllRecorded(tasks, groups, run, token), outcome.value))
  {
    if tasks == [] { return Some(ParallelResult([], 0, 0, [])); }
    var all, stop := RunGroups(tasks, GroupsOf(tasks, order), run, token);
    CompletesIff(tasks, GroupsOf(tasks, order), run, token, stop);
    if all.None? { return None; }
    var r := Assemble(tasks, all.value);
    return Some(r);
  }

  /** The final loop over the original order. */
  method Assemble(tasks: seq<Task>, all: map<int, Execution>) returns (r: ParallelResult)
    ensures Assembled(tasks, all, r)
  {
    var results: seq<Execution>, taskOrder: seq<(nat, Execution)> := [], [];
    var successes, failures := 0, 0;
    for i := 0 to |tasks|
      invariant successes + failures == i && successes == OkCount(results)
      invariant |results| == |taskOrder|
      invariant forall j :: 0 <= j < |results| ==>
                  && taskOrder[j].1 == results[j] && taskOrder[j].0 < i
                  && taskOrder[j].0 in all && all[taskOrder[j].0] == results[j]
      invariant forall j, k :: 0 <= j < k < |taskOrder| ==> taskOrder[j].0 < taskOrder[k].0
      invariant forall k: nat :: k < i && k in all ==> (k, all[k]) in taskOrder
    {
      if i !in all {
        failures := failures + 1;
      } else {
        var e := all[i];
        assert (results + [e])[..|results|] == results;
        results, taskOrder := results + [e], taskOrder + [(i, e)];
        if e.ok { successes := successes + 1; } else { failures := failures + 1; }
        assert taskOrder[|taskOrder| - 1] == (i, e);
      }
    }
    r := ParallelResult(results, successes, failures, taskOrder);
  }

  // ---------- results belong to their tasks ----------

  ghost predicate OwnTasks(run: Runner) {
    forall g, k, t :: run(g, k, t).Done? ==> run(g, k, t).execution.task == t
  }

  ghost predicate Deterministic(run: Runner) { forall g, k, t :: run(g, k, t) == run(0, 0, t) }

  /** An execution belongs to the task its index names, and is what a deterministic executor makes
      of it. */
  ghost predicate Owned(tasks: seq<Task>, run: Runner, i: int, e: Execution) {
    && InRange(i, |tasks|)
    && (OwnTasks(run) ==> e.task == At(tasks, i))
    && (Deterministic(run) ==> e == Settled(run(0, 0, At(tasks, i)), At(tasks, i)))
  }

  ghost predicate AllOwned(tasks: seq<Task>, run: Runner, all: map<int, Execution>) {
    forall i :: i in all ==> Owned(tasks, run, i, all[i])
  }

  function Keys(pairs: seq<Pair>): set<int> { set j | 0 <= j < |pairs| :: pairs[j].0 }

  function IndexSet(indices: seq<int>): set<int> { set i | i in indices }

  lemma {:induction false} MergeOwned(tasks: seq<Task>, run: Runner, pairs: seq<Pair>, all: map<int, Execution>)
    requires AllOwned(tasks, run, all)
    requires forall j :: 0 <= j < |pairs| ==> Owned(tasks, run, pairs[j].0, pairs[j].1)
    ensures AllOwned(tasks, run, Merge(all, pairs))
  {
    if pairs != [] {
      var n := |pairs| - 1;
      MergeOwned(tasks, run, pairs[..n], all);
    }
  }

  lemma GroupOwned(tasks: seq<Task>, indices: seq<int>, run: Runner, token: Token, g: nat)
    ensures var pairs := GroupPairs(tasks, indices, run, token, g);
            && (forall j :: 0 <= j < |pairs| ==> Owned(tasks, run, pairs[j].0, pairs[j].1))
            && (token == Never && AllInRange(indices, |tasks|) ==> Keys(pairs) == IndexSet(indices))
  {
    var pairs := GroupPairs(tasks, indices, run, token, g);
    if AllInRange(indices, |tasks|) {
      var group := Select(tasks, indices);
      forall j | 0 <= j < |pairs| ensures Owned(tasks, run, pairs[j].0, pairs[j].1) {
        assert pairs[j] == (indices[j], Settled(run(g, j, group[j]), group[j]));
      }
      if token == Never {
        forall i | i in indices ensures i in Keys(pairs) {
          var j :| 0 <= j < |indices| && indices[j] == i;
          assert pairs[j].0 == i;
        }
      }
    }
  }

  lemma {:induction false} RecordedOwned(tasks: seq<Task>, run: Runner, parts: nat -> seq<Pair>, token: Token, n: nat)
    requires forall g: nat, j :: 0 <= j < |parts(g)| ==> Owned(tasks, run, parts(g)[j].0, parts(g)[j].1)
    ensures AllOwned(tasks, run, Recorded(parts, token, n))
  {
    if n > 0 {
      RecordedOwned(tasks, run, parts, token, n - 1);
      if !token.SetAt(n - 1, 0) { MergeOwned(tasks, run, parts(n - 1), Recorded(parts, token, n - 1)); }
    }
  }

  lemma AllRecordedOwned(tasks: seq<Task>, groups: seq<seq<int>>, run: Runner, token: Token)
    ensures AllOwned(tasks, run, AllRecorded(tasks, groups, run, token))
  {
    var parts := Contributions(tasks, groups, run, token);
    forall g: nat, j | 0 <= j < |parts(g)| ensures Owned(tasks, run, parts(g)[j].0, parts(g)[j].1) {
      GroupOwned(tasks, groups[g], run, token, g);
    }
    RecordedOwned(tasks, run, parts, token, |groups|);
  }

  /** Whatever the grouping, the cancellation and the executor: when the call returns, successes
      and failures add up to the number of tasks, results come in strictly increasing index, and
      each result is that of the task its index names. */
  lemma ResultsBelongToTheirTasks(tasks: seq<Task>, groups: seq<seq<int>>, run: Runner, token: Token,
                                  r: ParallelResult, j: nat)
    requires OwnTasks(run) && Completes(tasks, groups, run, token)
    requires Assembled(tasks, AllRecorded(tasks, groups, run, token), r) && j < |r.taskOrder|
    ensures r.successes + r.failures == |tasks|
    ensures r.taskOrder[j].0 < |tasks| && r.taskOrder[j].1 == r.results[j]
    ensures r.results[j].task == tasks[r.taskOrder[j].0]
    ensures j + 1 < |r.taskOrder| ==> r.taskOrder[j].0 < r.taskOrder[j + 1].0
  {
    AllRecordedOwned(tasks, groups, run, token);
  }

  // ---------- nothing cancelled ----------

  function Listed(groups: seq<seq<int>>, n: nat): set<int>
    requires n <= |groups|
  {
    if n == 0 then {} else Listed(groups, n - 1) + IndexSet(groups[n - 1])
  }

  lemma {:induction false} KeysOfRecorded(groups: seq<seq<int>>, parts: nat -> seq<Pair>, n: nat)
    requires n <= |groups|
    requires forall g: nat :: g < n ==> Keys(parts(g)) == IndexSet(groups[g])
    ensures Recorded(parts, Never, n).Keys == Listed(groups, n)
  {
    if n > 0 {
      KeysOfRecorded(groups, parts, n - 1);
      KeysOfMerge(Recorded(parts, Never, n - 1), parts(n - 1));
    }
  }

  lemma {:induction false} KeysOfMerge(all: map<int, Execution>, pairs: seq<Pair>)
    ensures Merge(all, pairs).Keys == all.Keys + Keys(pairs)
  {
    if pairs != [] {
      var n := |pairs| - 1;
      KeysOfMerge(all, pairs[..n]);
      assert Keys(pairs) == Keys(pairs[..n]) + {pairs[n].0};
    }
  }

  /** Without cancellation every listed index, and no other, is recorded. */
  lemma RecordsWhatIsListed(tasks: seq<Task>, groups: seq<seq<int>>, run: Runner)
    requires Completes(tasks, groups, run, Never)
    ensures AllRecorded(tasks, groups, run, Never).Keys == Listed(groups, |groups|)
  {
    var parts := Contributions(tasks, groups, run, Never);
    forall g: nat | g < |groups| ensures Keys(parts(g)) == IndexSet(groups[g]) {
      assert !Stops(tasks, groups[g], run, g);
      GroupOwned(tasks, groups[g], run, Never, g);
    }
    KeysOfRecorded(groups, parts, |groups|);
  }

  /** Running the tasks one by one. */
  function OneByOne(tasks: seq<Task>, run: Runner): (es: seq<(nat, Execution)>)
    ensures |es| == |tasks|
    ensures forall i :: 0 <= i < |tasks| ==> es[i] == (i, Settled(run(0, 0, tasks[i]), tasks[i]))
  {
    if tasks == [] then []
    else OneByOne(tasks[..|tasks| - 1], run)
         + [(|tasks| - 1, Settled(run(0, 0, tasks[|tasks| - 1]), tasks[|tasks| - 1]))]
  }

  predicate HasIndex(order: seq<(nat, Execution)>, i: nat) { exists j :: 0 <= j < |order| && order[j].0 == i }

  /** Strictly increasing indices below `n` that include all of them are exactly 0, 1, ..., n-1. */
  lemma {:induction false} IncreasingAndComplete(order: seq<(nat, Execution)>, n: nat)
    requires forall j, k :: 0 <= j < k < |order| ==> order[j].0 < order[k].0
    requires forall j :: 0 <= j < |order| ==> order[j].0 < n
    requires forall i: nat :: i < n ==> HasIndex(order, i)
    ensures |order| == n && forall i :: 0 <= i < n ==> order[i].0 == i
    decreases n
  {
    if n > 0 { assert HasIndex(order, n - 1); }
    if order != [] {
      var last := |order| - 1;
      assert order[last].0 < n;
      var before := order[..last];
      forall i: nat | i < n - 1
        ensures HasIndex(before, i)
      {
        assert HasIndex(order, i);
        var k :| 0 <= k < |order| && order[k].0 == i;
        assert before[k].0 == i;
      }
      IncreasingAndComplete(before, n - 1);
    }
  }

  lemma CompleteIsOneByOne(tasks: seq<Task>, all: map<int, Execution>, run: Runner, r: ParallelResult)
    requires Deterministic(run) && AllOwned(tasks, run, all) && Assembled(tasks, all, r)
    requires forall i :: 0 <= i < |tasks| ==> i in all
    ensures r.taskOrder == OneByOne(tasks, run)
  {
    forall i: nat | i < |tasks| ensures HasIndex(r.taskOrder, i) { assert (i, all[i]) in r.taskOrder; }
    IncreasingAndComplete(r.taskOrder, |tasks|);
    forall i | 0 <= i < |tasks| ensures r.taskOrder[i] == OneByOne(tasks, run)[i] {
      assert Owned(tasks, run, i, all[i]);
    }
  }

  /** With a deterministic executor, no cancellation, and no group that raises, what the call
      returns is what running the tasks one by one returns exactly when every task is listed. */
  lemma SameAsOneByOneIff(tasks: seq<Task>, groups: seq<seq<int>>, run: Runner, r: ParallelResult)
    requires Deterministic(run) && Completes(tasks, groups, run, Never)
    requires Assembled(tasks, AllRecorded(tasks, groups, run, Never), r)
    ensures r.taskOrder == OneByOne(tasks, run)
            <==> forall i :: 0 <= i < |tasks| ==> i in Listed(groups, |groups|)
  {
    var all := AllRecorded(tasks, groups, run, Never);
    RecordsWhatIsListed(tasks, groups, run);
    AllRecordedOwned(tasks, groups, run, Never);
    if forall i :: 0 <= i < |tasks| ==> i in Listed(groups, |groups|) {
      CompleteIsOneByOne(tasks, all, run, r);
    }
    if r.taskOrder == OneByOne(tasks, run) {
      forall i | 0 <= i < |tasks| ensures i in Listed(groups, |groups|) { assert r.taskOrder[i].0 == i; }
    }
  }
}
