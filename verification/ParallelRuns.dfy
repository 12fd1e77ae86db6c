/** The thread pool behind grouped execution: the caller and the workers interleave freely, results
    are waited for with a timeout, and the cancellation token can be set at any moment
    (ghostchimera/chimera_pilot/executor_parallel.py). */
module ParallelRuns {
  import opened Wrappers
  import opened Parallel

  datatype Job = Job(tasks: seq<Task>, groups: seq<seq<int>>, maxWorkers: int) {
    /** `max(1, min(max_workers, num_tasks))`, and then at most one worker for each task of a group. */
    function Workers(n: nat): nat {
      var few := if maxWorkers < |tasks| then maxWorkers else |tasks|;
      var some := if few < 1 then 1 else few;
      if some < n then some else n
    }
  }

  datatype Slot = Queued | Running | Ended(attempt: Attempt)

  /** Where the calling thread stands. */
  datatype Phase =
    | AtGroup(g: nat)
    | Submitting(g: nat)
    | Collecting(g: nat)
    | Alone(g: nat)
    | Returned(g: nat)
    | Escaped(g: nat)

  datatype Mark = Began(group: nat, place: nat) | Finished(group: nat, place: nat)

  /** `slots` are the submitted tasks of the group at hand, `pairs` its results so far.  What the run
      did is kept beside: what each task came to, which were waited for in vain, the check that
      first found the token set, and the order of begins and ends. */
  datatype Sys = Sys(
    phase: Phase,
    slots: seq<Slot>,
    pairs: seq<Pair>,
    all: map<int, Execution>,
    cancelled: bool,
    token: Token,
    finished: map<(nat, nat), Attempt>,
    late: set<(nat, nat)>,
    trace: seq<Mark>)
  {
    predicate Active() { phase.Submitting? || phase.Collecting? || phase.Alone? }
    predicate Over() { phase.Returned? || phase.Escaped? }

    function Seen(check: nat): Token { if token.Never? then From(phase.g, check) else token }

    /** What the caller gets from a task: a timeout when it waited in vain, whatever the task does
        later. */
    function Effective(g: nat, k: nat): Attempt {
      if (g, k) in late || (g, k) !in finished then Raised("") else finished[(g, k)]
    }

    function Runner(): Parallel.Runner { (g: nat, k: nat, t: Task) => Effective(g, k) }
  }

  const INITIAL := Sys(AtGroup(0), [], [], map[], false, Never, map[], {}, [])

  function RunningCount(slots: seq<Slot>): nat {
    if slots == [] then 0
    else RunningCount(slots[..|slots| - 1]) + (if slots[|slots| - 1].Running? then 1 else 0)
  }

  predicate AllEnded(slots: seq<Slot>) { forall k :: 0 <= k < |slots| ==> slots[k].Ended? }

  datatype Event =
    | Cancel
    | CheckGroup
    | Submit
    | Start(k: nat)
    | Finish(k: nat, attempt: Attempt)
    | Collect
    | TimeOut
    | Join

  /** The group at hand exists, its indices can be looked up, and each slot is one of its tasks. */
  predicate Placed(job: Job, s: Sys) {
    && s.phase.g < |job.groups| && AllInRange(job.groups[s.phase.g], |job.tasks|)
    && |s.pairs| <= |s.slots| <= |job.groups[s.phase.g]|
  }

  predicate Enabled(job: Job, s: Sys, e: Event) {
    match e
    case Cancel => true
    case CheckGroup => s.phase.AtGroup? && s.phase.g <= |job.groups|
    case Submit => s.phase.Submitting? && Placed(job, s)
    case Start(k) =>
      && s.Active() && Placed(job, s) && k < |s.slots| && s.slots[k].Queued?
      && (forall j :: 0 <= j < k ==> !s.slots[j].Queued?)
      && RunningCount(s.slots) < job.Workers(|job.groups[s.phase.g]|)
    case Finish(k, _) => s.Active() && Placed(job, s) && k < |s.slots| && s.slots[k].Running?
    case Collect =>
      s.phase.Collecting? && Placed(job, s) && |s.pairs| < |s.slots| && s.slots[|s.pairs|].Ended?
    case TimeOut =>
      s.phase.Collecting? && Placed(job, s) && |s.pairs| < |s.slots| && !s.slots[|s.pairs|].Ended?
    case Join =>
      && Placed(job, s) && AllEnded(s.slots)
      && ((s.phase.Collecting? && |s.pairs| == |s.slots|) || (s.phase.Alone? && |s.slots| == 1))
  }

  function Opened(job: Job, s: Sys, g: nat): Sys
    requires g <= |job.groups|
  {
    if g == |job.groups| then s.(phase := Returned(g))
    else if s.cancelled then s.(phase := Returned(g), token := s.Seen(0))
    else if !AllInRange(job.groups[g], |job.tasks|) || job.groups[g] == [] then s.(phase := Escaped(g))
    else if |job.groups[g]| == 1 then s.(phase := Alone(g), slots := [Queued])
    else s.(phase := Submitting(g))
  }

  function Paired(job: Job, s: Sys, a: Attempt): Pair
    requires Placed(job, s) && |s.pairs| < |s.slots|
  {
    var i := job.groups[s.phase.g][|s.pairs|];
    (i, Settled(a, At(job.tasks, i)))
  }

  function GroupDone(s: Sys, pairs: seq<Pair>): Sys {
    s.(phase := AtGroup(s.phase.g + 1), slots := [], pairs := [], all := Merge(s.all, pairs))
  }

  function Do(job: Job, s: Sys, e: Event): Sys
    requires Enabled(job, s, e)
  {
    var g := s.phase.g;
    match e
    case Cancel => s.(cancelled := true)
    case CheckGroup => Opened(job, s, g)
    case Submit =>
      if |s.slots| == |job.groups[g]| then s.(phase := Collecting(g))
      else if s.cancelled then s.(phase := Collecting(g), token := s.Seen(|s.slots| + 1))
      else s.(slots := s.slots + [Queued])
    case Start(k) => s.(slots := s.slots[k := Running], trace := s.trace + [Began(g, k)])
    case Finish(k, attempt) =>
      s.(slots := s.slots[k := Ended(attempt)], finished := s.finished[(g, k) := attempt],
         trace := s.trace + [Finished(g, k)])
    case Collect => s.(pairs := s.pairs + [Paired(job, s, s.slots[|s.pairs|].attempt)])
    case TimeOut => s.(pairs := s.pairs + [Paired(job, s, Raised(""))], late := s.late + {(g, |s.pairs|)})
    case Join =>
      if s.phase.Collecting? then GroupDone(s, s.pairs)
      else
        match s.slots[0].attempt
        case Done(execution) => GroupDone(s, [(job.groups[g][0], execution)])
        case Raised(_) => s.(phase := Escaped(g), slots := [])
  }

  function Run(job: Job, s: Sys, events: seq<Event>): Option<Sys>
    decreases |events|
  {
    if events == [] then Some(s)
    else if !Enabled(job, s, events[0]) then None
    else Run(job, Do(job, s, events[0]), events[1..])
  }

  // ---------- what a run has come to ----------

  /** The parts of the state fit the phase. */
  predicate Consistent(job: Job, s: Sys) {
    var g := s.phase.g;
    && g <= |job.groups|
    && (s.token.From? ==> s.cancelled && s.token.group <= g)
    && (!s.Active() ==> s.slots == [] && s.pairs == [])
    && (s.phase.AtGroup? && s.token.From? ==> s.token.group < g)
    && (s.Active() ==> Placed(job, s) && !s.token.SetAt(g, 0))
    && (s.phase.Submitting? ==> s.token.Never? && |job.groups[g]| >= 2 && s.pairs == [])
    && (s.phase.Alone? ==> s.token.Never? && |job.groups[g]| == |s.slots| == 1 && s.pairs == [])
    && (s.phase.Collecting? ==> |job.groups[g]| >= 2 && |s.slots| == Submitted(|job.groups[g]|, s.token, g))
    && (s.phase.Returned? ==> g == |job.groups| || s.token.SetAt(g, 0))
    && (s.phase.Escaped? ==> g < |job.groups| && !s.token.SetAt(g, 0))
  }

  /** What is known of the tasks agrees with the slots, and each pair has what the caller got. */
  ghost predicate Remembered(job: Job, s: Sys) {
    var g := s.phase.g;
    && (forall p :: p in s.finished ==>
          p.0 <= g && (p.0 == g && s.Active() ==> p.1 < |s.slots| && s.slots[p.1] == Ended(s.finished[p])))
    && (forall p :: p in s.finished && p.0 == g ==> s.Active() || s.phase.Escaped?)
    && (forall k: nat :: k < |s.slots| && s.slots[k].Ended? ==> (g, k) in s.finished)
    && (forall p :: p in s.late ==> p.0 <= g && (p.0 == g ==> s.phase.Collecting? && p.1 < |s.pairs|))
    && (forall k: nat :: k < |s.pairs| ==> (g, k) in s.late || (k < |s.slots| && s.slots[k].Ended?))
    && (Placed(job, s) ==> forall k: nat :: k < |s.pairs| ==>
          s.pairs[k] == (job.groups[g][k], Settled(s.Effective(g, k), At(job.tasks, job.groups[g][k]))))
  }

  /** The groups before the one at hand went as the loop over the groups specifies. */
  predicate Past(job: Job, s: Sys) {
    && s.phase.g <= |job.groups|
    && Reaches(job.tasks, job.groups, s.Runner(), s.token, s.phase.g)
    && s.all == RecordedBefore(job.tasks, job.groups, s.Runner(), s.token, s.phase.g)
    && (s.phase.Escaped? && s.phase.g < |job.groups| ==>
          Stops(job.tasks, job.groups[s.phase.g], s.Runner(), s.phase.g))
  }

  ghost predicate Inv(job: Job, s: Sys) { Consistent(job, s) && Remembered(job, s) && Past(job, s) }

  lemma SameOutcomes(tasks: seq<Task>, indices: seq<int>, run: Runner, other: Runner, g: nat, n: nat)
    requires n <= |tasks| == |indices|
    requires forall k: nat :: k < |tasks| ==> run(g, k, tasks[k]) == other(g, k, tasks[k])
    ensures Pairs(tasks, indices, run, g, n) == Pairs(tasks, indices, other, g, n)
  {
  }

  lemma {:induction false} SameRecorded(parts: nat -> seq<Pair>, others: nat -> seq<Pair>, token: Token, later: Token,
                                        n: nat)
    requires forall g: nat :: g < n ==> parts(g) == others(g) && (token.SetAt(g, 0) <==> later.SetAt(g, 0))
    ensures Recorded(parts, token, n) == Recorded(others, later, n)
  {
    if n > 0 { SameRecorded(parts, others, token, later, n - 1); }
  }

  /** A step that concerns group `n` leaves what the groups before it came to. */
  lemma EarlierGroupsStay(job: Job, s: Sys, t: Sys, n: nat)
    requires n <= |job.groups|
    requires forall g: nat, k: nat :: g < n ==> s.Effective(g, k) == t.Effective(g, k)
    requires t.token == s.token || (s.token.Never? && t.token.From? && t.token.group >= n)
    ensures Reaches(job.tasks, job.groups, s.Runner(), s.token, n)
            <==> Reaches(job.tasks, job.groups, t.Runner(), t.token, n)
    ensures RecordedBefore(job.tasks, job.groups, s.Runner(), s.token, n)
            == RecordedBefore(job.tasks, job.groups, t.Runner(), t.token, n)
  {
    var parts := Contributions(job.tasks, job.groups, s.Runner(), s.token);
    var others := Contributions(job.tasks, job.groups, t.Runner(), t.token);
    forall g: nat | g < n
      ensures parts(g) == others(g) && (s.token.SetAt(g, 0) <==> t.token.SetAt(g, 0))
      ensures Stops(job.tasks, job.groups[g], s.Runner(), g) <==> Stops(job.tasks, job.groups[g], t.Runner(), g)
    {
      var indices := job.groups[g];
      if AllInRange(indices, |job.tasks|) {
        var m := Submitted(|indices|, s.token, g);
        SameOutcomes(Select(job.tasks, indices), indices, s.Runner(), t.Runner(), g, m);
      }
    }
    SameRecorded(parts, others, s.token, t.token, n);
  }

  lemma ConsistentKept(job: Job, s: Sys, e: Event)
    requires Consistent(job, s) && Enabled(job, s, e)
    ensures Consistent(job, Do(job, s, e))
  {
    hide AllInRange, RunningCount, Paired, Merge;
    if e.CheckGroup? && s.phase.g < |job.groups| && job.groups[s.phase.g] == [] { assert !s.Active(); }
  }

  lemma SubmitKeepsRemembered(job: Job, s: Sys, e: Event)
    requires Consistent(job, s) && Remembered(job, s) && Enabled(job, s, e) && (e.Cancel? || e.CheckGroup? || e.Submit?)
    ensures Remembered(job, Do(job, s, e))
  {
    hide AllInRange, RunningCount, Merge, Submitted;
  }

  lemma StartKeepsRemembered(job: Job, s: Sys, e: Event)
    requires Consistent(job, s) && Remembered(job, s) && Enabled(job, s, e) && e.Start?
    ensures Remembered(job, Do(job, s, e))
  {
    hide AllInRange, RunningCount, Merge, Submitted;
  }

  lemma FinishKeepsRemembered(job: Job, s: Sys, e: Event)
    requires Consistent(job, s) && Remembered(job, s) && Enabled(job, s, e) && e.Finish?
    ensures Remembered(job, Do(job, s, e))
  {
    hide AllInRange, RunningCount, Merge, Submitted;
  }

  lemma CollectKeepsRemembered(job: Job, s: Sys, e: Event)
    requires Consistent(job, s) && Remembered(job, s) && Enabled(job, s, e) && (e.Collect? || e.TimeOut?)
    ensures Remembered(job, Do(job, s, e))
  {
    hide AllInRange, RunningCount, Merge, Submitted;
  }

  lemma JoinKeepsRemembered(job: Job, s: Sys, e: Event)
    requires Consistent(job, s) && Remembered(job, s) && Enabled(job, s, e) && e.Join?
    ensures Remembered(job, Do(job, s, e))
  {
    hide AllInRange, RunningCount, Merge, Submitted;
  }

  lemma RememberedKept(job: Job, s: Sys, e: Event)
    requires Consistent(job, s) && Remembered(job, s) && Enabled(job, s, e)
    ensures Remembered(job, Do(job, s, e))
  {
    hide Consistent, Remembered, Enabled, Do;
    match e
    case Start(_) => StartKeepsRemembered(job, s, e);
    case Finish(_, _) => FinishKeepsRemembered(job, s, e);
    case Collect => CollectKeepsRemembered(job, s, e);
    case TimeOut => CollectKeepsRemembered(job, s, e);
    case Join => JoinKeepsRemembered(job, s, e);
    case _ => SubmitKeepsRemembered(job, s, e);
  }

  /** Steps within a group. */
  lemma PastKept(job: Job, s: Sys, t: Sys)
    requires Past(job, s) && t.phase.g == s.phase.g && t.all == s.all && !t.phase.Escaped?
    requires forall g: nat, k: nat :: g < s.phase.g ==> s.Effective(g, k) == t.Effective(g, k)
    requires t.token == s.token || (s.token.Never? && t.token.From? && t.token.group >= s.phase.g)
    ensures Past(job, t)
  {
    hide Reaches, RecordedBefore, Stops;
    EarlierGroupsStay(job, s, t, s.phase.g);
  }

  lemma CancelKeepsPast(job: Job, s: Sys)
    requires Past(job, s)
    ensures Past(job, s.(cancelled := true))
  {
    hide Reaches, RecordedBefore;
    EarlierGroupsStay(job, s, s.(cancelled := true), s.phase.g);
  }

  lemma CheckGroupKeepsPast(job: Job, s: Sys, e: Event)
    requires Consistent(job, s) && Past(job, s) && Enabled(job, s, e) && e.CheckGroup?
    ensures Past(job, Do(job, s, e))
  {
    hide Reaches, RecordedBefore, AllInRange;
    EarlierGroupsStay(job, s, Do(job, s, e), s.phase.g);
  }

  lemma OwnGroupOnly(job: Job, s: Sys, e: Event)
    requires Consistent(job, s) && Enabled(job, s, e) && !e.Cancel? && !e.CheckGroup? && !e.Join?
    ensures var t := Do(job, s, e);
            && t.phase.g == s.phase.g && t.all == s.all && t.Active()
            && (forall g: nat, k: nat :: g < s.phase.g ==> s.Effective(g, k) == t.Effective(g, k))
            && (t.token == s.token || (s.token.Never? && t.token.From? && t.token.group >= s.phase.g))
  {
    hide AllInRange, RunningCount, Merge, Submitted;
  }

  /** When the last result of a group is in, its pairs are those its specification names. */
  lemma PairsAreTheGroups(job: Job, s: Sys)
    requires Consistent(job, s) && Remembered(job, s) && s.phase.Collecting? && |s.pairs| == |s.slots|
    ensures s.phase.g < |job.groups|
    ensures s.pairs == GroupPairs(job.tasks, job.groups[s.phase.g], s.Runner(), s.token, s.phase.g)
    ensures !Stops(job.tasks, job.groups[s.phase.g], s.Runner(), s.phase.g)
  {
  }

  lemma JoinKeepsPast(job: Job, s: Sys, e: Event)
    requires Inv(job, s) && Enabled(job, s, e) && e.Join? && s.phase.Collecting?
    ensures Past(job, Do(job, s, e))
  {
    hide Reaches, RecordedBefore, AllInRange, Remembered, Submitted, Merge, Stops, GroupPairs, AllEnded;
    var t, g := Do(job, s, e), s.phase.g;
    PairsAreTheGroups(job, s);
    GroupStep(job.tasks, job.groups, s.Runner(), s.token, g);
    EarlierGroupsStay(job, s, t, g + 1);
  }

  /** A group of one: its pair, or its exception. */
  lemma AloneIsTheGroup(job: Job, s: Sys)
    requires Consistent(job, s) && Remembered(job, s) && s.phase.Alone? && s.slots[0].Ended?
    ensures s.phase.g < |job.groups|
    ensures var a, indices := s.slots[0].attempt, job.groups[s.phase.g];
            && (Stops(job.tasks, indices, s.Runner(), s.phase.g) <==> a.Raised?)
            && (a.Done? ==>
                  GroupPairs(job.tasks, indices, s.Runner(), s.token, s.phase.g) == [(indices[0], a.execution)])
  {
    var g, a := s.phase.g, s.slots[0].attempt;
    assert s.Effective(g, 0) == a;
    var indices := job.groups[g];
    var group := Select(job.tasks, indices);
    assert Pairs(group, indices, s.Runner(), g, 1) == [(indices[0], Settled(a, group[0]))];
  }

  lemma JoinAloneKeepsPast(job: Job, s: Sys, e: Event)
    requires Inv(job, s) && Enabled(job, s, e) && e.Join? && s.phase.Alone?
    ensures Past(job, Do(job, s, e))
  {
    hide Reaches, RecordedBefore, AllInRange, Remembered, Submitted, Merge, Stops, GroupPairs;
    var t, g := Do(job, s, e), s.phase.g;
    AloneIsTheGroup(job, s);
    if s.slots[0].attempt.Done? {
      GroupStep(job.tasks, job.groups, s.Runner(), s.token, g);
      EarlierGroupsStay(job, s, t, g + 1);
    } else {
      EarlierGroupsStay(job, s, t, g);
      SameStop(job, s, t, g);
    }
  }

  lemma SameStop(job: Job, s: Sys, t: Sys, g: nat)
    requires g < |job.groups| && s.finished == t.finished && s.late == t.late
    ensures Stops(job.tasks, job.groups[g], s.Runner(), g) <==> Stops(job.tasks, job.groups[g], t.Runner(), g)
  {
  }

  lemma StepKept(job: Job, s: Sys, e: Event)
    requires Inv(job, s) && Enabled(job, s, e)
    ensures Inv(job, Do(job, s, e))
  {
    hide Remembered, Past, Enabled, Do;
    ConsistentKept(job, s, e);
    RememberedKept(job, s, e);
    PastStep(job, s, e);
  }

  lemma PastStep(job: Job, s: Sys, e: Event)
    requires Inv(job, s) && Enabled(job, s, e)
    ensures Past(job, Do(job, s, e))
  {
    hide Past, Remembered;
    match e
    case Cancel => CancelKeepsPast(job, s);
    case CheckGroup => CheckGroupKeepsPast(job, s, e);
    case Join => if s.phase.Collecting? { JoinKeepsPast(job, s, e); } else { JoinAloneKeepsPast(job, s, e); }
    case _ =>
      OwnGroupOnly(job, s, e);
      PastKept(job, s, Do(job, s, e));
  }

  lemma {:induction false} RunKeepsInv(job: Job, s: Sys, events: seq<Event>)
    requires Inv(job, s) && Run(job, s, events).Some?
    ensures Inv(job, Run(job, s, events).value)
    decreases |events|
  {
    hide Inv, Enabled, Do;
    if events != [] {
      StepKept(job, s, events[0]);
      RunKeepsInv(job, Do(job, s, events[0]), events[1..]);
    }
  }

  lemma InitialInv(job: Job)
    ensures Inv(job, INITIAL)
  {
  }

  /** Whatever the workers, the timeouts and the moment of cancellation: a run that returns has
      recorded exactly what the loop over the groups records when each task has the outcome the
      caller got for it, and a run that raises has come to a group that raises. */
  lemma EveryRunIsTheLoop(job: Job, events: seq<Event>)
    requires Run(job, INITIAL, events).Some?
    ensures var s := Run(job, INITIAL, events).value;
            && (s.phase.Returned? ==>
                  && Completes(job.tasks, job.groups, s.Runner(), s.token)
                  && s.all == AllRecorded(job.tasks, job.groups, s.Runner(), s.token))
            && (s.phase.Escaped? ==> !Completes(job.tasks, job.groups, s.Runner(), s.token))
  {
    hide Stops;
    InitialInv(job);
    RunKeepsInv(job, INITIAL, events);
    var s := Run(job, INITIAL, events).value;
    if s.phase.Returned? {
      CompletesIff(job.tasks, job.groups, s.Runner(), s.token, s.phase.g);
      CancelledGroupsRecordNothing(Contributions(job.tasks, job.groups, s.Runner(), s.token), s.token, s.phase.g,
                                   |job.groups|);
    }
  }

  /** Two runs that return, in which the caller got the same outcome for each task and the same
      check found the token set, record the same: the order in which tasks began and finished,
      and the number of workers, leave no trace. */
  lemma OrderLeavesNoTrace(job: Job, other: Job, events: seq<Event>, others: seq<Event>)
    requires other.tasks == job.tasks && other.groups == job.groups
    requires Run(job, INITIAL, events).Some? && Run(other, INITIAL, others).Some?
    requires var s, t := Run(job, INITIAL, events).value, Run(other, INITIAL, others).value;
             && s.phase.Returned? && t.phase.Returned? && s.token == t.token
             && forall g: nat, k: nat :: s.Effective(g, k) == t.Effective(g, k)
    ensures Run(job, INITIAL, events).value.all == Run(other, INITIAL, others).value.all
  {
    hide Completes, Reaches;
    EveryRunIsTheLoop(job, events);
    EveryRunIsTheLoop(other, others);
    EarlierGroupsStay(job, Run(job, INITIAL, events).value, Run(other, INITIAL, others).value, |job.groups|);
  }

  // ---------- the barrier between groups ----------

  predicate EndsBetween(trace: seq<Mark>, a: nat, b: nat)
    requires a < |trace| && b <= |trace|
  {
    exists c :: a < c < b && trace[c] == Finished(trace[a].group, trace[a].place)
  }

  /** Marks come group by group, and a task of an earlier group has ended before anything of a later
      group begins. */
  predicate GroupByGroup(trace: seq<Mark>) {
    forall a, b :: 0 <= a < b < |trace| && trace[a].group != trace[b].group ==>
      trace[a].group < trace[b].group && (trace[a].Began? ==> EndsBetween(trace, a, b))
  }

  predicate BeginsOnce(trace: seq<Mark>) {
    forall a, b :: 0 <= a < b < |trace| && trace[a].Began? ==> trace[a] != trace[b]
  }

  /** The slot of a task that has begun and whose group is at hand; no other task is unfinished. */
  predicate MarkFits(s: Sys, a: nat)
    requires a < |s.trace|
  {
    var m := s.trace[a];
    && m.group <= s.phase.g
    && (s.Active() && m.group == s.phase.g ==> m.place < |s.slots| && !s.slots[m.place].Queued?)
    && (s.phase.AtGroup? || s.phase.Returned? ==> m.group < s.phase.g)
    && (m.Began? ==> (s.Active() && m.group == s.phase.g && s.slots[m.place].Running?)
                     || EndsBetween(s.trace, a, |s.trace|))
  }

  ghost predicate Orderly(job: Job, s: Sys) {
    && GroupByGroup(s.trace) && BeginsOnce(s.trace)
    && (forall a :: 0 <= a < |s.trace| ==> MarkFits(s, a))
    && (s.Active() && s.phase.g < |job.groups| ==> RunningCount(s.slots) <= job.Workers(|job.groups[s.phase.g]|))
  }

  lemma EndsStill(trace: seq<Mark>, m: Mark, a: nat, b: nat)
    requires a < |trace| && b <= |trace|
    ensures EndsBetween(trace + [m], a, b) <==> EndsBetween(trace, a, b)
    ensures EndsBetween(trace, a, |trace|) ==> EndsBetween(trace + [m], a, |trace| + 1)
  {
    var longer := trace + [m];
    if EndsBetween(trace, a, b) {
      var c :| a < c < b && trace[c] == Finished(trace[a].group, trace[a].place);
      assert longer[c] == trace[c];
    }
    if EndsBetween(trace, a, |trace|) {
      var c :| a < c < |trace| && trace[c] == Finished(trace[a].group, trace[a].place);
      assert longer[c] == trace[c];
    }
  }

  lemma MarkAdded(s: Sys, m: Mark)
    requires GroupByGroup(s.trace) && s.Active() && m.group == s.phase.g
    requires forall a :: 0 <= a < |s.trace| ==> MarkFits(s, a)
    ensures GroupByGroup(s.trace + [m])
  {
    var longer := s.trace + [m];
    forall a, b | 0 <= a < b < |longer| && longer[a].group != longer[b].group
      ensures longer[a].group < longer[b].group && (longer[a].Began? ==> EndsBetween(longer, a, b))
    {
      EndsStill(s.trace, m, a, b);
      assert MarkFits(s, a);
    }
  }

  lemma {:induction false} RunningAfter(slots: seq<Slot>, k: nat, slot: Slot)
    requires k < |slots|
    ensures RunningCount(slots[k := slot])
            == RunningCount(slots) - (if slots[k].Running? then 1 else 0) + (if slot.Running? then 1 else 0)
  {
    var n := |slots| - 1;
    if k < n {
      RunningAfter(slots[..n], k, slot);
      assert slots[k := slot][..n] == slots[..n][k := slot];
    } else {
      assert slots[k := slot][..n] == slots[..n];
    }
  }

  lemma StartIsOrderly(job: Job, s: Sys, e: Event)
    requires Orderly(job, s) && Enabled(job, s, e) && e.Start?
    ensures Orderly(job, Do(job, s, e))
  {
    var t, m := Do(job, s, e), Began(s.phase.g, e.k);
    MarkAdded(s, m);
    RunningAfter(s.slots, e.k, Running);
    forall a | 0 <= a < |s.trace| ensures s.trace[a] != m && MarkFits(t, a) {
      assert MarkFits(s, a);
      EndsStill(s.trace, m, a, |s.trace|);
    }
  }

  lemma FinishIsOrderly(job: Job, s: Sys, e: Event)
    requires Orderly(job, s) && Enabled(job, s, e) && e.Finish?
    ensures Orderly(job, Do(job, s, e))
  {
    var t, m := Do(job, s, e), Finished(s.phase.g, e.k);
    MarkAdded(s, m);
    RunningAfter(s.slots, e.k, Ended(e.attempt));
    forall a | 0 <= a < |s.trace| ensures MarkFits(t, a) {
      assert MarkFits(s, a);
      EndsStill(s.trace, m, a, |s.trace|);
      assert t.trace[|s.trace|] == m;
    }
  }

  lemma OtherStepIsOrderly(job: Job, s: Sys, e: Event)
    requires Consistent(job, s) && Orderly(job, s) && Enabled(job, s, e) && !e.Start? && !e.Finish?
    ensures Orderly(job, Do(job, s, e))
  {
    hide GroupByGroup, BeginsOnce, AllInRange, Merge, Submitted;
    var t := Do(job, s, e);
    forall a | 0 <= a < |t.trace| ensures MarkFits(t, a) { OtherStepMark(job, s, e, a); }
  }

  lemma OtherStepMark(job: Job, s: Sys, e: Event, a: nat)
    requires Consistent(job, s) && Enabled(job, s, e) && !e.Start? && !e.Finish? && a < |s.trace| && MarkFits(s, a)
    ensures Do(job, s, e).trace == s.trace && MarkFits(Do(job, s, e), a)
  {
    hide AllInRange, Merge, Submitted, RunningCount, EndsBetween;
  }

  lemma {:induction false} RunIsOrderly(job: Job, s: Sys, events: seq<Event>)
    requires Inv(job, s) && Orderly(job, s) && Run(job, s, events).Some?
    ensures Inv(job, Run(job, s, events).value) && Orderly(job, Run(job, s, events).value)
    decreases |events|
  {
    hide Remembered, Past, Orderly, Enabled, Do, Consistent;
    if events != [] {
      var e := events[0];
      StepKept(job, s, e);
      if e.Start? { StartIsOrderly(job, s, e); }
      else if e.Finish? { FinishIsOrderly(job, s, e); }
      else { OtherStepIsOrderly(job, s, e); }
      RunIsOrderly(job, Do(job, s, e), events[1..]);
    }
  }

  /** In every run: a group begins only when every begun task of the groups before it has ended,
      the ones given up on included; no task begins twice; never more tasks run at once than
      there are workers; and when the call returns or raises, every begun task has ended. */
  lemma GroupsRunOneAfterAnother(job: Job, events: seq<Event>)
    requires Run(job, INITIAL, events).Some?
    ensures var s := Run(job, INITIAL, events).value;
            && GroupByGroup(s.trace) && BeginsOnce(s.trace)
            && (s.Active() ==> s.phase.g < |job.groups|
                               && RunningCount(s.slots) <= job.Workers(|job.groups[s.phase.g]|))
            && (s.Over() ==>
                  forall a :: 0 <= a < |s.trace| && s.trace[a].Began? ==> EndsBetween(s.trace, a, |s.trace|))
  {
    InitialInv(job);
    RunIsOrderly(job, INITIAL, events);
    var s := Run(job, INITIAL, events).value;
    if s.Over() {
      forall a | 0 <= a < |s.trace| && s.trace[a].Began? ensures EndsBetween(s.trace, a, |s.trace|) {
        assert MarkFits(s, a);
      }
    }
  }

  // ---------- tasks that were waited for in vain ----------

  predicate LateEnded(s: Sys) { forall p :: p in s.late && p.0 < s.phase.g ==> p in s.finished }

  lemma LateEndedKept(job: Job, s: Sys, e: Event)
    requires Consistent(job, s) && Remembered(job, s) && LateEnded(s) && Enabled(job, s, e)
    ensures LateEnded(Do(job, s, e))
  {
    hide AllInRange, RunningCount, Merge, Submitted, Paired;
  }

  lemma {:induction false} RunKeepsLateEnded(job: Job, s: Sys, events: seq<Event>)
    requires Inv(job, s) && LateEnded(s) && Run(job, s, events).Some?
    ensures Inv(job, Run(job, s, events).value) && LateEnded(Run(job, s, events).value)
    decreases |events|
  {
    hide Consistent, Remembered, Past, LateEnded, Enabled, Do;
    if events != [] {
      LateEndedKept(job, s, events[0]);
      StepKept(job, s, events[0]);
      RunKeepsLateEnded(job, Do(job, s, events[0]), events[1..]);
    }
  }

  /** A task that was given up on has run to its end by the time the call returns, and what it came
      to is discarded: the caller got a failure. */
  lemma LateTasksRunAndAreDiscarded(job: Job, events: seq<Event>, g: nat, k: nat)
    requires Run(job, INITIAL, events).Some?
    requires var s := Run(job, INITIAL, events).value; s.Over() && (g, k) in s.late
    ensures var s := Run(job, INITIAL, events).value;
            (g, k) in s.finished && s.Runner()(g, k, Task("")).Raised?
  {
    InitialInv(job);
    RunKeepsLateEnded(job, INITIAL, events);
  }

  // ---------- no run gets stuck ----------

  lemma {:induction false} NoneRunning(slots: seq<Slot>)
    requires forall k :: 0 <= k < |slots| ==> !slots[k].Running?
    ensures RunningCount(slots) == 0
  {
    if slots != [] { NoneRunning(slots[..|slots| - 1]); }
  }

  lemma {:induction false} FirstQueued(slots: seq<Slot>) returns (k: nat)
    requires exists j :: 0 <= j < |slots| && slots[j].Queued?
    ensures k < |slots| && slots[k].Queued? && forall j :: 0 <= j < k ==> !slots[j].Queued?
  {
    k := 0;
    while !slots[k].Queued?
      invariant k < |slots| && forall j :: 0 <= j < k ==> !slots[j].Queued?
      decreases |slots| - k
    {
      k := k + 1;
    }
  }

  /** While some task is not done, a worker can move. */
  lemma WorkersMove(job: Job, s: Sys) returns (e: Event)
    requires s.Active() && Placed(job, s) && !AllEnded(s.slots)
    ensures Enabled(job, s, e) && (e.Start? || e.Finish?)
  {
    hide AllInRange;
    if k :| 0 <= k < |s.slots| && s.slots[k].Running? {
      e := Finish(k, Raised(""));
    } else {
      NoneRunning(s.slots);
      var k := FirstQueued(s.slots);
      e := Start(k);
    }
  }

  /** Until the call returns or raises, the caller or a worker can move. */
  lemma NoRunGetsStuck(job: Job, events: seq<Event>) returns (e: Event)
    requires Run(job, INITIAL, events).Some? && !Run(job, INITIAL, events).value.Over()
    ensures Enabled(job, Run(job, INITIAL, events).value, e) && !e.Cancel?
  {
    hide Remembered, Past, AllInRange;
    InitialInv(job);
    RunKeepsInv(job, INITIAL, events);
    var s := Run(job, INITIAL, events).value;
    if s.phase.AtGroup? { e := CheckGroup; }
    else if s.phase.Submitting? { e := Submit; }
    else if s.phase.Collecting? && |s.pairs| < |s.slots| {
      e := if s.slots[|s.pairs|].Ended? then Collect else TimeOut;
    }
    else if AllEnded(s.slots) { e := Join; }
    else { e := WorkersMove(job, s); }
  }
}
