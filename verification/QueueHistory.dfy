/** What the records of the job queue say over a run: their statuses, their results, and that none
    is lost. */
module QueueHistory {
  import opened Wrappers
  import opened JobQueue
  import opened QueueRuns

  // ---------- no record is lost ----------

  /** The same job, whatever has become of it. */
  predicate SameJob(a: Option<Job>, b: Option<Job>) {
    a.Some? ==> b.Some? && a.value.request == b.value.request && a.value.requestedAt == b.value.requestedAt
  }

  ghost predicate FileIsBehind(s: World, id: string) { SameJob(Look(s.queue.file, id), Look(s.queue.jobs, id)) }

  lemma RecordKept(s: World, step: Step, id: string)
    requires Enabled(s, step) && FileIsBehind(s, id)
    ensures FileIsBehind(Next(s, step), id)
    ensures SameJob(Look(s.queue.file, id), Look(Next(s, step).queue.file, id))
    ensures !step.Restart? ==> SameJob(Look(s.queue.jobs, id), Look(Next(s, step).queue.jobs, id))
    ensures Look(Next(s, step).queue.jobs, id) != Look(s.queue.jobs, id)
            ==> step.Restart? || Target(s, step) == Some(id)
  {
    if !step.Restart? { NextLook(s, step, id); }
  }

  lemma {:induction false} RecordsKept(s: World, steps: seq<Step>, id: string)
    requires Feasible(s, steps) && FileIsBehind(s, id)
    ensures SameJob(Look(s.queue.file, id), Look(After(s, steps).queue.file, id))
    ensures FileIsBehind(After(s, steps), id)
    decreases |steps|
  {
    if steps != [] {
      RecordKept(s, steps[0], id);
      RecordsKept(Next(s, steps[0]), steps[1..], id);
    }
  }

  /** A job once in the file stays in it, and in memory, with the request it was made for, through
      every interleaving, failed write and restart. */
  lemma NoRecordIsLost(s: World, steps: seq<Step>, more: seq<Step>, id: string)
    requires Initial(s) && Feasible(s, steps) && Feasible(After(s, steps), more)
    ensures var now, later := After(s, steps).queue, After(After(s, steps), more).queue;
            && SameJob(Look(now.file, id), Look(later.file, id))
            && SameJob(Look(later.file, id), Look(later.jobs, id))
  {
    RecordsKept(s, steps, id);
    RecordsKept(After(s, steps), more, id);
  }

  // ---------- results ----------

  /** The payload was returned by an invocation of this job's runner, or was there at the start. */
  predicate Genuine(log: seq<Event>, loaded: seq<Job>, id: string, p: Payload) {
    Yielded(id, p) in log || HasResult(loaded, id, p)
  }

  predicate HasResult(jobs: seq<Job>, id: string, p: Payload) {
    Look(jobs, id).Some? && Look(jobs, id).value.result == Some(p)
  }

  ghost predicate ResultsGenuine(s: World, loaded: seq<Job>, id: string) {
    && (forall p :: HasResult(s.queue.jobs, id, p) || HasResult(s.queue.file, id, p) ==> Genuine(s.log, loaded, id, p))
    && (forall w :: 0 <= w < |s.callers| && s.callers[w].Back? && s.callers[w].id == id ==>
          Genuine(s.log, loaded, id, s.callers[w].payload))
  }

  lemma NewResult(s: World, step: Step, id: string, p: Payload)
    requires Enabled(s, step) && !step.Restart?
    requires HasResult(Next(s, step).queue.jobs, id, p) && !HasResult(s.queue.jobs, id, p)
    ensures step.Complete? && s.callers[step.w] == Back(id, p)
  {
    NextMemory(s, step, id);
  }

  lemma NewReturn(s: World, step: Step, id: string, p: Payload, w: nat)
    requires Enabled(s, step) && w < |s.callers| && |Next(s, step).callers| == |s.callers|
    requires Next(s, step).callers[w] == Back(id, p)
    ensures s.callers[w] == Back(id, p) || Logged(s, step) == [Yielded(id, p)]
  {
  }

  lemma ResultsKept(s: World, step: Step, loaded: seq<Job>, id: string)
    requires Enabled(s, step) && ResultsGenuine(s, loaded, id)
    ensures ResultsGenuine(Next(s, step), loaded, id)
  {
    var s' := Next(s, step);
    NextLog(s, step, id);
    NextCallers(s, step);
    forall p | HasResult(s'.queue.jobs, id, p) || HasResult(s'.queue.file, id, p)
      ensures Genuine(s'.log, loaded, id, p)
    {
      if !step.Restart? {
        NextFile(s, step);
        if HasResult(s'.queue.jobs, id, p) && !HasResult(s.queue.jobs, id, p) { NewResult(s, step, id, p); }
      }
      assert Genuine(s.log, loaded, id, p);
    }
    forall w | 0 <= w < |s'.callers| && s'.callers[w].Back? && s'.callers[w].id == id
      ensures Genuine(s'.log, loaded, id, s'.callers[w].payload)
    {
      NewReturn(s, step, id, s'.callers[w].payload, w);
    }
  }

  lemma {:induction false} ResultsKeptInRun(s: World, steps: seq<Step>, loaded: seq<Job>, id: string)
    requires Feasible(s, steps) && ResultsGenuine(s, loaded, id)
    ensures ResultsGenuine(After(s, steps), loaded, id)
    decreases |steps|
  {
    if steps != [] {
      ResultsKept(s, steps[0], loaded, id);
      ResultsKeptInRun(Next(s, steps[0]), steps[1..], loaded, id);
    }
  }

  /** No job ever carries, in memory or in the file, the result of another job's runner. */
  lemma ResultsAreTheJobsOwn(s: World, steps: seq<Step>, id: string, p: Payload)
    requires Initial(s) && Feasible(s, steps)
    requires HasResult(After(s, steps).queue.jobs, id, p) || HasResult(After(s, steps).queue.file, id, p)
    ensures Yielded(id, p) in After(s, steps).log || HasResult(s.queue.file, id, p)
  {
    ResultsKeptInRun(s, steps, s.queue.file, id);
  }

  // ---------- statuses ----------

  function StatusOf(jobs: seq<Job>, id: string): seq<string> {
    if Look(jobs, id).Some? then [Look(jobs, id).value.status] else []
  }

  /** The statuses a job is seen to have: the first one, and one more each time its record changes. */
  function History(s: World, steps: seq<Step>, id: string, seen: seq<string>): seq<string>
    requires Feasible(s, steps)
    decreases |steps|
  {
    if steps == [] then seen
    else History(Next(s, steps[0]), steps[1..], id, Seen(s, steps[0], id, seen))
  }

  function Seen(s: World, step: Step, id: string, seen: seq<string>): seq<string>
    requires Enabled(s, step)
  {
    var now := Next(s, step).queue.jobs;
    if Look(now, id) == Look(s.queue.jobs, id) then seen else seen + StatusOf(now, id)
  }

  /** Within one life of the process, with runners that do not report `queued`.  `writes` says that
      no write of the file fails. */
  predicate Ordinary(step: Step, writes: bool) {
    && !step.Restart?
    && (step.Return? && step.outcome.Returned? ==> FinalStatus(step.outcome.payload) != "queued")
    && (writes ==> DiskOf(step).None?)
  }

  /** queued, then cancelled, or running and one final status.  When the write of a final status
      fails, the handler adds `error`. */
  predicate Story(h: seq<string>, writes: bool) {
    || |h| <= 1
    || (h[0] == "queued" && h[1] == "cancelled" && |h| == 2)
    || (h[0] == "queued" && h[1] == "running"
        && (|h| > 2 ==> h[2] != "queued")
        && (|h| > 3 ==> !writes && |h| == 4 && h[3] == "error"))
  }

  predicate Owns(p: Phase, id: string) { Holds(p, id) || (p.Failing? && p.id == id) }

  predicate AtRunning(h: seq<string>) { |h| == 2 && h[0] == "queued" && h[1] == "running" }

  /** What a caller with the job in hand knows of its history. */
  predicate Knows(p: Phase, h: seq<string>, writes: bool) {
    && (p.Back? ==> FinalStatus(p.payload) != "queued")
    && (AtRunning(h)
        || (p.Failing? && !writes && |h| == 3 && h[0] == "queued" && h[1] == "running" && h[2] != "queued"))
  }

  ghost predicate HistoryInv(s: World, h: seq<string>, id: string, writes: bool) {
    && Story(h, writes)
    && (if Look(s.queue.jobs, id).Some? then h != [] && h[|h| - 1] == Look(s.queue.jobs, id).value.status else h == [])
    && (forall w :: 0 <= w < |s.callers| && Owns(s.callers[w], id) ==> Knows(s.callers[w], h, writes))
    && (forall v, w :: 0 <= v < w < |s.callers| ==> !(Owns(s.callers[v], id) && Owns(s.callers[w], id)))
  }

  lemma NextOwns(s: World, step: Step, id: string, w: nat)
    requires Enabled(s, step) && !step.Restart? && w < |s.callers| && |Next(s, step).callers| == |s.callers|
    ensures Owns(Next(s, step).callers[w], id) ==>
              || Owns(s.callers[w], id)
              || (step.Start? && w == step.w && s.callers[w].id == id && QueuedIn(s.queue.jobs, id))
  {
  }

  lemma OneOwnerKept(s: World, step: Step, h: seq<string>, id: string, writes: bool)
    requires Enabled(s, step) && !step.Restart? && HistoryInv(s, h, id, writes)
    ensures var s' := Next(s, step);
            forall v, w :: 0 <= v < w < |s'.callers| ==> !(Owns(s'.callers[v], id) && Owns(s'.callers[w], id))
  {
    var s' := Next(s, step);
    NextCallers(s, step);
    forall v, w | 0 <= v < w < |s'.callers| ensures !(Owns(s'.callers[v], id) && Owns(s'.callers[w], id)) {
      NextOwns(s, step, id, v);
      NextOwns(s, step, id, w);
    }
  }

  lemma StoryKept(s: World, step: Step, h: seq<string>, id: string, writes: bool)
    requires Enabled(s, step) && Ordinary(step, writes) && HistoryInv(s, h, id, writes)
    ensures var s', h' := Next(s, step), Seen(s, step, id, h);
            && Story(h', writes)
            && (if Look(s'.queue.jobs, id).Some? then h' != [] && h'[|h'| - 1] == Look(s'.queue.jobs, id).value.status
                else h' == [])
  {
    NextMemory(s, step, id);
  }

  lemma KnowledgeKept(s: World, step: Step, h: seq<string>, id: string, writes: bool, w: nat)
    requires Enabled(s, step) && Ordinary(step, writes) && HistoryInv(s, h, id, writes)
    requires w < |s.callers| && |Next(s, step).callers| == |s.callers| && Owns(Next(s, step).callers[w], id)
    ensures Knows(Next(s, step).callers[w], Seen(s, step, id, h), writes)
  {
    NextMemory(s, step, id);
    NextOwns(s, step, id, w);
  }

  lemma {:induction false} HistoryKept(s: World, steps: seq<Step>, h: seq<string>, id: string, writes: bool)
    requires Feasible(s, steps) && HistoryInv(s, h, id, writes)
    requires forall k :: 0 <= k < |steps| ==> Ordinary(steps[k], writes)
    ensures Story(History(s, steps, id, h), writes)
    decreases |steps|
  {
    if steps != [] {
      var s', h' := Next(s, steps[0]), Seen(s, steps[0], id, h);
      assert Ordinary(steps[0], writes);
      NextCallers(s, steps[0]);
      OneOwnerKept(s, steps[0], h, id, writes);
      StoryKept(s, steps[0], h, id, writes);
      forall w | 0 <= w < |s'.callers| && Owns(s'.callers[w], id) ensures Knows(s'.callers[w], h', writes) {
        KnowledgeKept(s, steps[0], h, id, writes, w);
      }
      HistoryKept(s', steps[1..], h', id, writes);
    }
  }

  /** Over every interleaving within one life of the process, a job that is queued goes to
      cancelled, or to running and then one final status, and stays there.  Only when writing the
      final status fails is it followed by `error`. */
  lemma EveryJobHasOneStory(s: World, steps: seq<Step>, id: string, writes: bool)
    requires Initial(s) && Feasible(s, steps)
    requires forall k :: 0 <= k < |steps| ==> Ordinary(steps[k], writes)
    ensures Story(History(s, steps, id, StatusOf(s.queue.jobs, id)), writes)
  {
    hide Story, HistoryInv, Ordinary, StatusOf, Initial, History;
    StoryBegins(s, id, writes);
    HistoryKept(s, steps, StatusOf(s.queue.jobs, id), id, writes);
  }

  lemma StoryBegins(s: World, id: string, writes: bool)
    requires Initial(s)
    ensures HistoryInv(s, StatusOf(s.queue.jobs, id), id, writes)
  {
    hide Find;
  }
}
