/** Any number of callers interleaving the sections of the job queue, with failing writes and
    restarts of the process. */
module QueueRuns {
  import opened Wrappers
  import opened JobQueue

  /** Where a caller of `run` or `run_next` stands between two sections. */
  datatype Phase =
    | Idle
    | Called(id: string)                    // about to begin
    | Begun(id: string)                     // saved as running, runner not yet invoked
    | Inside(id: string)                    // the runner is at work
    | Back(id: string, payload: Payload)    // the runner returned
    | Failing(id: string, error: string)    // in the exception handler

  datatype Event =
    | Invoked(id: string)
    | Yielded(id: string, payload: Payload)
    | Accepted(id: string)                  // `cancel` returned

  datatype World = World(queue: Queue, callers: seq<Phase>, log: seq<Event>)

  datatype Step =
    | Add(id: string, request: Request, now: real, disk: Disk)
    | CallRun(w: nat, id: string)
    | CallRunNext(w: nat)
    | Start(w: nat, now: real, disk: Disk)
    | Refuse(w: nat, error: string)         // no runner can be made
    | Invoke(w: nat)
    | Return(w: nat, outcome: Outcome)
    | Complete(w: nat, now: real, disk: Disk)
    | Handle(w: nat, now: real, disk: Disk)
    | Withdraw(id: string, now: real, disk: Disk)
    | Restart

  /** The identifiers handed out are new; every other step needs its caller at the right place. */
  predicate Enabled(s: World, step: Step) {
    match step
    case Add(id, _, _, _) => Find(s.queue.jobs, id).None?
    case CallRun(w, _) => w < |s.callers| && s.callers[w].Idle?
    case CallRunNext(w) => w < |s.callers| && s.callers[w].Idle?
    case Start(w, _, _) => w < |s.callers| && s.callers[w].Called?
    case Refuse(w, _) => w < |s.callers| && s.callers[w].Begun?
    case Invoke(w) => w < |s.callers| && s.callers[w].Begun?
    case Return(w, _) => w < |s.callers| && s.callers[w].Inside?
    case Complete(w, _, _) => w < |s.callers| && s.callers[w].Back?
    case Handle(w, _, _) => w < |s.callers| && s.callers[w].Failing?
    case Withdraw(_, _, _) => true
    case Restart => true
  }

  function Move(s: World, w: nat, p: Phase): World
    requires w < |s.callers|
  {
    s.(callers := s.callers[w := p])
  }

  function Next(s: World, step: Step): World
    requires Enabled(s, step)
  {
    match step
    case Add(id, request, now, disk) => s.(queue := Enqueue(s.queue, NewJob(id, request, now), disk).queue)
    case CallRun(w, id) => Move(s, w, Called(id))
    case CallRunNext(w) =>
      var first := FirstQueued(s.queue.jobs, 0);
      if first.None? then s else Move(s, w, Called(s.queue.jobs[first.value].id))
    case Start(w, now, disk) =>
      var id := s.callers[w].id;
      var turn := Begin(s.queue, id, now, disk);
      Move(s, w, if turn.reply.Go? then Begun(id) else Idle).(queue := turn.queue)
    case Refuse(w, error) => Move(s, w, Failing(s.callers[w].id, error))
    case Invoke(w) => Move(s, w, Inside(s.callers[w].id)).(log := s.log + [Event.Invoked(s.callers[w].id)])
    case Return(w, outcome) =>
      (var id := s.callers[w].id;
       match outcome
       case Raised(error) => Move(s, w, Failing(id, error))
       case Returned(p) => Move(s, w, Back(id, p)).(log := s.log + [Yielded(id, p)]))
    case Complete(w, now, disk) =>
      var id := s.callers[w].id;
      var turn := Finish(s.queue, id, s.callers[w].payload, now, disk);
      Move(s, w, if turn.reply.SaveFailed? then Failing(id, turn.reply.error) else Idle).(queue := turn.queue)
    case Handle(w, now, disk) =>
      Move(s, w, Idle).(queue := Fail(s.queue, s.callers[w].id, s.callers[w].error, now, disk).queue)
    case Withdraw(id, now, disk) =>
      var turn := Cancel(s.queue, id, now, disk);
      s.(queue := turn.queue, log := if turn.reply.Record? then s.log + [Accepted(id)] else s.log)
    case Restart => World(Queue(s.queue.file, s.queue.file), seq(|s.callers|, _ => Idle), s.log)
  }

  predicate Feasible(s: World, steps: seq<Step>)
    decreases |steps|
  {
    steps == [] || (Enabled(s, steps[0]) && Feasible(Next(s, steps[0]), steps[1..]))
  }

  function After(s: World, steps: seq<Step>): World
    requires Feasible(s, steps)
    decreases |steps|
  {
    if steps == [] then s else After(Next(s, steps[0]), steps[1..])
  }

  /** A process that has just loaded the state file. */
  ghost predicate Initial(s: World) {
    && s.queue.jobs == s.queue.file && s.log == []
    && (forall w :: 0 <= w < |s.callers| ==> s.callers[w] == Idle)
  }

  // ---------- one record ----------

  function Look(jobs: seq<Job>, id: string): (job: Option<Job>)
    ensures job.Some? ==> job.value.id == id
  {
    var at := Find(jobs, id); if at.None? then None else Some(jobs[at.value])
  }

  predicate QueuedIn(jobs: seq<Job>, id: string) {
    Look(jobs, id).Some? && Look(jobs, id).value.status == "queued"
  }

  lemma LookAfterUpdate(jobs: seq<Job>, at: nat, job: Job, id: string)
    requires Find(jobs, job.id) == Some(at)
    ensures Look(jobs[at := job], id) == if id == job.id then Some(job) else Look(jobs, id)
  {
    var now := jobs[at := job];
    assert forall j :: 0 <= j < |jobs| ==> now[j].id == jobs[j].id;
  }

  lemma LookAfterAppend(jobs: seq<Job>, job: Job, id: string)
    requires Find(jobs, job.id).None?
    ensures Look(jobs + [job], id) == if id == job.id then Some(job) else Look(jobs, id)
  {
    var now := jobs + [job];
    assert now[|jobs|] == job;
    assert forall j :: 0 <= j < |jobs| ==> now[j] == jobs[j];
  }

  /** The job whose record a step may write. */
  function Target(s: World, step: Step): Option<string>
    requires Enabled(s, step)
  {
    match step
    case Add(id, _, _, _) => Some(id)
    case Start(w, _, _) => Some(s.callers[w].id)
    case Complete(w, _, _) => Some(s.callers[w].id)
    case Handle(w, _, _) => Some(s.callers[w].id)
    case Withdraw(id, _, _) => Some(id)
    case _ => None
  }

  /** What a step leaves in its target's record in memory. */
  function Rewritten(s: World, step: Step, before: Option<Job>): Option<Job>
    requires Enabled(s, step)
  {
    match step
    case Add(id, request, now, _) => Some(NewJob(id, request, now))
    case Start(_, now, _) =>
      if before.Some? && before.value.status == "queued" then Some(Running(before.value, now)) else before
    case Complete(w, now, _) =>
      if before.Some? then Some(Finished(before.value, s.callers[w].payload, now)) else before
    case Handle(w, now, _) => if before.Some? then Some(Failed(before.value, s.callers[w].error, now)) else before
    case Withdraw(_, now, _) =>
      if before.Some? && before.value.status == "queued" then Some(Cancelled(before.value, now)) else before
    case _ => before
  }

  /** The write of the state file that a step makes, if it makes one. */
  function DiskOf(step: Step): Disk {
    match step
    case Add(_, _, _, disk) => disk
    case Start(_, _, disk) => disk
    case Complete(_, _, disk) => disk
    case Handle(_, _, disk) => disk
    case Withdraw(_, _, disk) => disk
    case _ => None
  }

  /** A step other than a restart changes at most its target's record, and a write of the file
      stores what is then in memory. */
  lemma NextLook(s: World, step: Step, id: string)
    requires Enabled(s, step) && !step.Restart?
    ensures var q, q' := s.queue, Next(s, step).queue;
            && Look(q'.jobs, id)
               == (if Target(s, step) == Some(id) then Rewritten(s, step, Look(q.jobs, id)) else Look(q.jobs, id))
            && (q'.file == q.file || q'.file == q'.jobs)
            && (Target(s, step) == Some(id) && DiskOf(step).None? && Look(q'.jobs, id) != Look(q.jobs, id)
                ==> q'.file == q'.jobs)
  {
    NextMemory(s, step, id);
    NextFile(s, step);
  }

  lemma NextFile(s: World, step: Step)
    requires Enabled(s, step) && !step.Restart?
    ensures var q, q' := s.queue, Next(s, step).queue;
            && (q'.file == q.file || q'.file == q'.jobs)
            && (q'.jobs != q.jobs && DiskOf(step).None? ==> q'.file == q'.jobs)
  {
  }

  lemma NextMemory(s: World, step: Step, id: string)
    requires Enabled(s, step) && !step.Restart?
    ensures var q, q' := s.queue, Next(s, step).queue;
            Look(q'.jobs, id)
            == (if Target(s, step) == Some(id) then Rewritten(s, step, Look(q.jobs, id)) else Look(q.jobs, id))
  {
    var jobs := s.queue.jobs;
    match step
    case Add(i, request, now, _) => LookAfterAppend(jobs, NewJob(i, request, now), id);
    case Start(w, now, _) =>
      var at := Find(jobs, s.callers[w].id);
      if at.Some? { LookAfterUpdate(jobs, at.value, Running(jobs[at.value], now), id); }
    case Complete(w, now, _) =>
      var at := Find(jobs, s.callers[w].id);
      if at.Some? { LookAfterUpdate(jobs, at.value, Finished(jobs[at.value], s.callers[w].payload, now), id); }
    case Handle(w, now, _) =>
      var at := Find(jobs, s.callers[w].id);
      if at.Some? { LookAfterUpdate(jobs, at.value, Failed(jobs[at.value], s.callers[w].error, now), id); }
    case Withdraw(i, now, _) =>
      var at := Find(jobs, i);
      if at.Some? { LookAfterUpdate(jobs, at.value, Cancelled(jobs[at.value], now), id); }
    case _ =>
  }

  // ---------- how often a runner is invoked ----------

  predicate Requeue(e: Event, id: string) {
    e.Yielded? && e.id == id && FinalStatus(e.payload) == "queued"
  }

  function Invocations(log: seq<Event>, id: string): nat {
    if log == [] then 0
    else Invocations(log[..|log| - 1], id) + (if log[|log| - 1] == Event.Invoked(id) then 1 else 0)
  }

  /** How many results of the job's runner carry the status `queued`. */
  function Requeues(log: seq<Event>, id: string): nat {
    if log == [] then 0
    else Requeues(log[..|log| - 1], id) + (if Requeue(log[|log| - 1], id) then 1 else 0)
  }

  lemma CountsOfAppend(log: seq<Event>, e: Event, id: string)
    ensures Invocations(log + [e], id) == Invocations(log, id) + (if e == Event.Invoked(id) then 1 else 0)
    ensures Requeues(log + [e], id) == Requeues(log, id) + (if Requeue(e, id) then 1 else 0)
  {
    assert (log + [e])[..|log|] == log;
  }

  /** The caller has the job in hand and its runner's result has not been written. */
  predicate Holds(p: Phase, id: string) { (p.Begun? || p.Inside? || p.Back?) && p.id == id }

  predicate Returning(p: Phase, id: string) { p.Back? && p.id == id && FinalStatus(p.payload) == "queued" }

  /** Nobody can bring the job to its runner any more. */
  ghost predicate Closed(s: World, id: string) {
    && Look(s.queue.file, id).Some? && !QueuedIn(s.queue.file, id) && !QueuedIn(s.queue.jobs, id)
    && (forall w :: 0 <= w < |s.callers| ==> !Holds(s.callers[w], id))
  }

  ghost predicate OneHolder(s: World, id: string) {
    forall v, w :: 0 <= v < w < |s.callers| ==> !(Holds(s.callers[v], id) && Holds(s.callers[w], id))
  }

  ghost predicate HeldIsSaved(s: World, id: string) {
    && (Look(s.queue.file, id).Some? ==> Look(s.queue.jobs, id).Some?)
    && (forall w :: 0 <= w < |s.callers| && Holds(s.callers[w], id) ==>
          Look(s.queue.file, id).Some? && !QueuedIn(s.queue.file, id) && !QueuedIn(s.queue.jobs, id))
  }

  /** The job may yet be invoked without a further result that says `queued`. */
  ghost predicate Open(s: World, id: string) {
    || QueuedIn(s.queue.jobs, id) || QueuedIn(s.queue.file, id)
    || exists w :: 0 <= w < |s.callers| && (s.callers[w] == Begun(id) || Returning(s.callers[w], id))
  }

  ghost predicate Counted(s: World, id: string) {
    var invoked, requeued := Invocations(s.log, id), Requeues(s.log, id);
    && invoked <= 1 + requeued
    && (Open(s, id) ==> invoked <= requeued)
    && (Look(s.queue.file, id).None? ==> invoked == 0)
    && (Accepted(id) in s.log ==> Closed(s, id) && invoked <= requeued)
  }

  ghost predicate Inv(s: World, id: string) { OneHolder(s, id) && HeldIsSaved(s, id) && Counted(s, id) }

  /** Only a `run` that finds the job queued and saves it as running takes it in hand. */
  lemma NextHolds(s: World, step: Step, id: string, w: nat)
    requires Enabled(s, step) && w < |s.callers|
    ensures Holds(Next(s, step).callers[w], id) ==>
              || Holds(s.callers[w], id)
              || (step.Start? && w == step.w && s.callers[w].id == id && QueuedIn(s.queue.jobs, id) && step.disk.None?)
  {
  }

  lemma NextCallers(s: World, step: Step)
    requires Enabled(s, step)
    ensures |Next(s, step).callers| == |s.callers|
  {
  }

  lemma OneHolderKept(s: World, step: Step, id: string)
    requires Enabled(s, step) && OneHolder(s, id) && HeldIsSaved(s, id)
    ensures OneHolder(Next(s, step), id)
  {
    var s' := Next(s, step);
    NextCallers(s, step);
    forall v, w | 0 <= v < w < |s'.callers| ensures !(Holds(s'.callers[v], id) && Holds(s'.callers[w], id)) {
      NextHolds(s, step, id, v);
      NextHolds(s, step, id, w);
    }
  }

  lemma HeldIsSavedKept(s: World, step: Step, id: string)
    requires Enabled(s, step) && OneHolder(s, id) && HeldIsSaved(s, id)
    ensures HeldIsSaved(Next(s, step), id)
  {
    var s' := Next(s, step);
    NextCallers(s, step);
    if !step.Restart? { NextLook(s, step, id); }
    forall w | 0 <= w < |s'.callers| && Holds(s'.callers[w], id)
      ensures Look(s'.queue.file, id).Some? && !QueuedIn(s'.queue.file, id) && !QueuedIn(s'.queue.jobs, id)
    {
      NextHolds(s, step, id, w);
    }
  }

  lemma ClosedKept(s: World, step: Step, id: string)
    requires Enabled(s, step) && HeldIsSaved(s, id) && Closed(s, id)
    ensures Closed(Next(s, step), id)
  {
    var s' := Next(s, step);
    NextCallers(s, step);
    if !step.Restart? { NextLook(s, step, id); }
    forall w | 0 <= w < |s'.callers| ensures !Holds(s'.callers[w], id) { NextHolds(s, step, id, w); }
  }

  /** What a step adds to the log. */
  function Logged(s: World, step: Step): seq<Event>
    requires Enabled(s, step)
  {
    match step
    case Invoke(w) => [Event.Invoked(s.callers[w].id)]
    case Return(w, outcome) => if outcome.Returned? then [Yielded(s.callers[w].id, outcome.payload)] else []
    case Withdraw(id, _, disk) => if QueuedIn(s.queue.jobs, id) && disk.None? then [Accepted(id)] else []
    case _ => []
  }

  lemma NextLog(s: World, step: Step, id: string)
    requires Enabled(s, step)
    ensures var e, log, log' := Logged(s, step), s.log, Next(s, step).log;
            && log' == log + e
            && Invocations(log', id) == Invocations(log, id) + (if e == [Event.Invoked(id)] then 1 else 0)
            && Requeues(log', id) == Requeues(log, id) + (if e != [] && Requeue(e[0], id) then 1 else 0)
            && (Accepted(id) in log' <==> Accepted(id) in log || e == [Accepted(id)])
  {
    hide Begin, Finish, Fail, Enqueue, FirstQueued, Invocations, Requeues;
    if Logged(s, step) != [] { CountsOfAppend(s.log, Logged(s, step)[0], id); }
  }

  /** Where a job becomes open: it is new, it comes from a queued record, or its result says so. */
  lemma NextOpen(s: World, step: Step, id: string)
    requires Enabled(s, step) && HeldIsSaved(s, id) && Open(Next(s, step), id)
    ensures Open(s, id) || (step.Add? && step.id == id) || (Logged(s, step) != [] && Requeue(Logged(s, step)[0], id))
  {
    var s' := Next(s, step);
    NextCallers(s, step);
    if !step.Restart? { NextLook(s, step, id); }
  }

  lemma InvokedIsNotOpen(s: World, step: Step, id: string)
    requires Enabled(s, step) && Inv(s, id) && Logged(s, step) == [Event.Invoked(id)]
    ensures Open(s, id) && !Open(Next(s, step), id) && Look(s.queue.file, id).Some?
  {
    assert s.callers[step.w] == Begun(id) && Holds(s.callers[step.w], id);
    var s' := Next(s, step);
    forall w | 0 <= w < |s'.callers| ensures s'.callers[w] != Begun(id) && !Returning(s'.callers[w], id) {
      if w != step.w { assert !Holds(s.callers[w], id); }
    }
  }

  lemma AcceptedIsClosed(s: World, step: Step, id: string)
    requires Enabled(s, step) && Inv(s, id) && Logged(s, step) == [Accepted(id)]
    ensures Open(s, id) && Closed(Next(s, step), id)
  {
    NextLook(s, step, id);
    NextCallers(s, step);
    var s' := Next(s, step);
    forall w | 0 <= w < |s'.callers| ensures !Holds(s'.callers[w], id) { NextHolds(s, step, id, w); }
  }

  lemma CountedKept(s: World, step: Step, id: string)
    requires Enabled(s, step) && Inv(s, id)
    ensures Counted(Next(s, step), id)
  {
    hide Invocations, Requeues;
    var s' := Next(s, step);
    var e := Logged(s, step);
    NextLog(s, step, id);
    if !step.Restart? { NextLook(s, step, id); }
    if Open(s', id) { NextOpen(s, step, id); }
    if e == [Event.Invoked(id)] { InvokedIsNotOpen(s, step, id); }
    if Closed(s, id) { ClosedKept(s, step, id); }
    if e == [Accepted(id)] { AcceptedIsClosed(s, step, id); }
  }

  lemma {:induction false} InvInEveryRun(s: World, steps: seq<Step>, id: string)
    requires Feasible(s, steps) && Inv(s, id)
    ensures Inv(After(s, steps), id)
    decreases |steps|
  {
    if steps != [] {
      OneHolderKept(s, steps[0], id);
      HeldIsSavedKept(s, steps[0], id);
      CountedKept(s, steps[0], id);
      InvInEveryRun(Next(s, steps[0]), steps[1..], id);
    }
  }

  /** However the callers interleave, whatever writes fail and wherever the process restarts, a
      job's runner is invoked at most once more often than its results have said `queued`. */
  lemma InvokedAtMostOncePerQueuedResult(s: World, steps: seq<Step>, id: string)
    requires Initial(s) && Feasible(s, steps)
    ensures Invocations(After(s, steps).log, id) <= 1 + Requeues(After(s, steps).log, id)
  {
    InvInEveryRun(s, steps, id);
  }

  /** Once `cancel` has returned, the job is in the file, and no continuation of the run invokes
      its runner; and it has never been invoked if no result of its own put it back. */
  lemma CancelledJobNeverRuns(s: World, steps: seq<Step>, more: seq<Step>, id: string)
    requires Initial(s) && Feasible(s, steps) && Feasible(After(s, steps), more)
    requires Accepted(id) in After(s, steps).log
    ensures var now, later := After(s, steps), After(After(s, steps), more);
            && Look(later.queue.file, id).Some?
            && Invocations(later.log, id) == Invocations(now.log, id) <= Requeues(now.log, id)
  {
    InvInEveryRun(s, steps, id);
    ClosedForGood(After(s, steps), more, id);
  }

  lemma {:induction false} ClosedForGood(s: World, steps: seq<Step>, id: string)
    requires Feasible(s, steps) && Inv(s, id) && Closed(s, id)
    ensures Closed(After(s, steps), id) && Invocations(After(s, steps).log, id) == Invocations(s.log, id)
    decreases |steps|
  {
    if steps != [] {
      OneHolderKept(s, steps[0], id);
      HeldIsSavedKept(s, steps[0], id);
      CountedKept(s, steps[0], id);
      ClosedKept(s, steps[0], id);
      NextLog(s, steps[0], id);
      ClosedForGood(Next(s, steps[0]), steps[1..], id);
    }
  }

  // ---------- one call that nothing comes between ----------

  lemma AfterOne(s: World, step: Step, rest: seq<Step>)
    requires Enabled(s, step) && Feasible(Next(s, step), rest)
    ensures Feasible(s, [step] + rest) && After(s, [step] + rest) == After(Next(s, step), rest)
  {
    assert ([step] + rest)[1..] == rest;
  }

  /** The steps of a whole call of `run` by caller `w`, from the one after the runner is invoked. */
  function RestOfCall(w: nat, outcome: Outcome, saved: bool, v: Surroundings): seq<Step> {
    if outcome.Raised? then [Return(w, outcome)] + [Handle(w, v.fail, v.disks.2)]
    else if saved then [Return(w, outcome)] + [Complete(w, v.finish, v.disks.1)]
    else [Return(w, outcome)] + ([Complete(w, v.finish, v.disks.1)] + [Handle(w, v.fail, v.disks.2)])
  }

  lemma RestOfCallRuns(s: World, w: nat, id: string, outcome: Outcome, v: Surroundings)
    requires w < |s.callers| && s.callers[w] == Inside(id) && Find(s.queue.jobs, id).Some?
    ensures Feasible(s, RestOfCall(w, outcome, v.disks.1.None?, v))
    ensures After(s, RestOfCall(w, outcome, v.disks.1.None?, v)).queue == AfterRunner(s.queue, id, outcome, v).queue
  {
    hide Find, Save;
    var s1 := Next(s, Return(w, outcome));
    if outcome.Raised? {
      AfterOne(s1, Handle(w, v.fail, v.disks.2), []);
      AfterOne(s, Return(w, outcome), [Handle(w, v.fail, v.disks.2)]);
      assert [Handle(w, v.fail, v.disks.2)] + [] == [Handle(w, v.fail, v.disks.2)];
    } else {
      var complete, handle := Complete(w, v.finish, v.disks.1), Handle(w, v.fail, v.disks.2);
      var s2 := Next(s1, complete);
      assert [complete] + [] == [complete] && [handle] + [] == [handle];
      if v.disks.1.None? {
        AfterOne(s1, complete, []);
        AfterOne(s, Return(w, outcome), [complete]);
      } else {
        AfterOne(s2, handle, []);
        AfterOne(s1, complete, [handle]);
        AfterOne(s, Return(w, outcome), [complete] + [handle]);
      }
    }
  }

  /** A call of `run` that nothing comes between is one of these runs. */
  lemma RunAloneIsARun(s: World, w: nat, id: string, runner: Job -> Outcome, v: Surroundings) returns (steps: seq<Step>)
    requires w < |s.callers| && s.callers[w].Idle?
    ensures Feasible(s, steps) && After(s, steps).queue == RunAlone(s.queue, id, runner, v).queue
  {
    hide Find, Save;
    var begin := Start(w, v.begin, v.disks.0);
    var s1 := Next(s, CallRun(w, id));
    var s2 := Next(s1, begin);
    var begun := Begin(s.queue, id, v.begin, v.disks.0);
    if begun.reply.Go? {
      var s3 := Next(s2, Invoke(w));
      assert Find(s3.queue.jobs, id).Some? by { BegunIsThere(s.queue, id, v.begin, v.disks.0); }
      var outcome := runner(begun.reply.job);
      var rest := RestOfCall(w, outcome, v.disks.1.None?, v);
      RestOfCallRuns(s3, w, id, outcome, v);
      AfterOne(s2, Invoke(w), rest);
      AfterOne(s1, begin, [Invoke(w)] + rest);
      AfterOne(s, CallRun(w, id), [begin] + ([Invoke(w)] + rest));
      steps := [CallRun(w, id)] + ([begin] + ([Invoke(w)] + rest));
    } else {
      AfterOne(s1, begin, []);
      AfterOne(s, CallRun(w, id), [begin] + []);
      steps := [CallRun(w, id)] + ([begin] + []);
    }
  }

  lemma BegunIsThere(q: Queue, id: string, now: real, disk: Disk)
    ensures Begin(q, id, now, disk).reply.Go? ==> Find(Begin(q, id, now, disk).queue.jobs, id).Some?
  {
    var at := Find(q.jobs, id);
    if at.Some? { LookAfterUpdate(q.jobs, at.value, Running(q.jobs[at.value], now), id); }
  }

  // ---------- the bound is reached ----------

  const Again: Payload := Payload(Some("queued"), "")

  /** The job is queued, stored, and the only caller is idle. */
  ghost predicate Ready(s: World, id: string) {
    && s.callers == [Idle] && |s.queue.jobs| == 1 && s.queue.jobs[0].id == id
    && s.queue.jobs[0].status == "queued"
  }

  lemma RunUntilInvoked(s: World, id: string) returns (s': World)
    requires Ready(s, id)
    ensures forall rest :: Feasible(s', rest) ==>
              var steps := [CallRun(0, id)] + ([Start(0, 0.0, None)] + ([Invoke(0)] + rest));
              Feasible(s, steps) && After(s, steps) == After(s', rest)
    ensures s'.callers == [Inside(id)] && |s'.queue.jobs| == 1 && s'.queue.jobs[0].id == id
    ensures s'.log == s.log + [Event.Invoked(id)]
  {
    var s1 := Next(s, CallRun(0, id));
    var s2 := Next(s1, Start(0, 0.0, None));
    s' := Next(s2, Invoke(0));
    forall rest | Feasible(s', rest)
      ensures var steps := [CallRun(0, id)] + ([Start(0, 0.0, None)] + ([Invoke(0)] + rest));
              Feasible(s, steps) && After(s, steps) == After(s', rest)
    {
      AfterOne(s2, Invoke(0), rest);
      AfterOne(s1, Start(0, 0.0, None), [Invoke(0)] + rest);
      AfterOne(s, CallRun(0, id), [Start(0, 0.0, None)] + ([Invoke(0)] + rest));
    }
  }

  lemma PutBack(s: World, id: string) returns (s': World)
    requires s.callers == [Inside(id)] && |s.queue.jobs| == 1 && s.queue.jobs[0].id == id
    ensures Ready(s', id) && s'.log == s.log + [Yielded(id, Again)]
    ensures forall rest :: Feasible(s', rest) ==>
              var steps := [Return(0, Returned(Again))] + ([Complete(0, 0.0, None)] + rest);
              Feasible(s, steps) && After(s, steps) == After(s', rest)
  {
    var s1 := Next(s, Return(0, Returned(Again)));
    s' := Next(s1, Complete(0, 0.0, None));
    forall rest | Feasible(s', rest)
      ensures var steps := [Return(0, Returned(Again))] + ([Complete(0, 0.0, None)] + rest);
              Feasible(s, steps) && After(s, steps) == After(s', rest)
    {
      AfterOne(s1, Complete(0, 0.0, None), rest);
      AfterOne(s, Return(0, Returned(Again)), [Complete(0, 0.0, None)] + rest);
    }
  }

  lemma {:induction false} RunsAgain(s: World, id: string, k: nat) returns (steps: seq<Step>)
    requires Ready(s, id)
    ensures Feasible(s, steps)
    ensures Invocations(After(s, steps).log, id) == Invocations(s.log, id) + k + 1
    ensures Requeues(After(s, steps).log, id) == Requeues(s.log, id) + k
    decreases k
  {
    var s1 := RunUntilInvoked(s, id);
    CountsOfAppend(s.log, Event.Invoked(id), id);
    var rest: seq<Step> := [];
    if k > 0 {
      var s2 := PutBack(s1, id);
      CountsOfAppend(s1.log, Yielded(id, Again), id);
      rest := RunsAgain(s2, id, k - 1);
      rest := [Return(0, Returned(Again))] + ([Complete(0, 0.0, None)] + rest);
    }
    steps := [CallRun(0, id)] + ([Start(0, 0.0, None)] + ([Invoke(0)] + rest));
  }

  /** For every `k`, a run in which `k` results say `queued` and the runner is invoked `k + 1` times:
      "at most once" needs runners that never report `queued`. */
  lemma BoundIsReached(id: string, request: Request, k: nat) returns (s: World, steps: seq<Step>)
    ensures Initial(s) && Feasible(s, steps)
    ensures Invocations(After(s, steps).log, id) == k + 1 && Requeues(After(s, steps).log, id) == k
  {
    s := World(Queue([], []), [Idle], []);
    var add := Add(id, request, 0.0, None);
    var rest := RunsAgain(Next(s, add), id, k);
    AfterOne(s, add, rest);
    steps := [add] + rest;
  }
}
