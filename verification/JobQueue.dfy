/** The durable autonomy job queue (ghostchimera/chimera_pilot/autonomy_queue.py): its locked
    sections as a class, each proved equal to a function on the queue's state. */
module JobQueue {
  import opened Wrappers

  datatype Request = Request(name: string, profile: string, execute: bool)

  /** What a runner's `to_dict` yields. */
  datatype Payload = Payload(status: Option<string>, body: string)

  datatype Outcome = Returned(payload: Payload) | Raised(error: string)

  datatype Job = Job(
    id: string,
    request: Request,
    status: string,
    requestedAt: real,
    startedAt: Option<real>,
    finishedAt: Option<real>,
    result: Option<Payload>,
    error: Option<string>)

  /** `str(payload.get("status") or "ok")` */
  function FinalStatus(p: Payload): string {
    if p.status.None? || p.status.value == "" then "ok" else p.status.value
  }

  function NewJob(id: string, request: Request, now: real): Job {
    Job(id, request, "queued", now, None, None, None, None)
  }

  /** The records in memory and the records in the state file. */
  datatype Queue = Queue(jobs: seq<Job>, file: seq<Job>)

  datatype Reply = Go(job: Job) | Record(job: Job) | NoJob | UnknownJob | OnlyQueued | SaveFailed(error: string)

  datatype Turn = Turn(queue: Queue, reply: Reply)

  /** One write of the state file; `disk` is None or the reason the write fails. */
  type Disk = Option<string>

  function Find(jobs: seq<Job>, id: string): (found: Option<nat>)
    ensures found.Some? ==> found.value < |jobs| && jobs[found.value].id == id
    ensures found.Some? ==> forall j :: 0 <= j < found.value ==> jobs[j].id != id
    ensures found.None? ==> forall j :: 0 <= j < |jobs| ==> jobs[j].id != id
  {
    FindFrom(jobs, id, 0)
  }

  function FindFrom(jobs: seq<Job>, id: string, from: nat): (found: Option<nat>)
    requires from <= |jobs|
    ensures found.Some? ==> from <= found.value < |jobs| && jobs[found.value].id == id
    ensures found.Some? ==> forall j :: from <= j < found.value ==> jobs[j].id != id
    ensures found.None? ==> forall j :: from <= j < |jobs| ==> jobs[j].id != id
    decreases |jobs| - from
  {
    if from == |jobs| then None
    else if jobs[from].id == id then Some(from)
    else FindFrom(jobs, id, from + 1)
  }

  /** The first queued record from `from` on. */
  function FirstQueued(jobs: seq<Job>, from: nat): (found: Option<nat>)
    requires from <= |jobs|
    ensures found.Some? ==> from <= found.value < |jobs| && jobs[found.value].status == "queued"
    ensures found.Some? ==> forall j :: from <= j < found.value ==> jobs[j].status != "queued"
    ensures found.None? ==> forall j :: from <= j < |jobs| ==> jobs[j].status != "queued"
    decreases |jobs| - from
  {
    if from == |jobs| then None
    else if jobs[from].status == "queued" then Some(from)
    else FirstQueued(jobs, from + 1)
  }

  function Save(jobs: seq<Job>, q: Queue, disk: Disk): Queue { Queue(jobs, if disk.None? then jobs else q.file) }

  /** What a section replies once it has tried to save. */
  function Answer(reply: Reply, disk: Disk): Reply { if disk.None? then reply else SaveFailed(disk.value) }

  function Enqueue(q: Queue, job: Job, disk: Disk): Turn {
    Turn(Save(q.jobs + [job], q, disk), Answer(Record(job), disk))
  }

  function Running(job: Job, now: real): Job { job.(status := "running", startedAt := Some(now)) }

  function Finished(job: Job, p: Payload, now: real): Job {
    job.(status := FinalStatus(p), result := Some(p), error := None, finishedAt := Some(now))
  }

  function Failed(job: Job, error: string, now: real): Job {
    job.(status := "error", error := Some(error), finishedAt := Some(now))
  }

  function Cancelled(job: Job, now: real): Job { job.(status := "cancelled", finishedAt := Some(now)) }

  /** The section of `run` before the runner. */
  function Begin(q: Queue, id: string, now: real, disk: Disk): Turn {
    var at := Find(q.jobs, id);
    if at.None? then Turn(q, UnknownJob)
    else if q.jobs[at.value].status != "queued" then Turn(q, Record(q.jobs[at.value]))
    else var job := Running(q.jobs[at.value], now); Turn(Save(q.jobs[at.value := job], q, disk), Answer(Go(job), disk))
  }

  /** The section of `run` after a runner that returned. */
  function Finish(q: Queue, id: string, p: Payload, now: real, disk: Disk): Turn {
    var at := Find(q.jobs, id);
    if at.None? then Turn(q, UnknownJob)
    else
      var job := Finished(q.jobs[at.value], p, now);
      Turn(Save(q.jobs[at.value := job], q, disk), Answer(Record(job), disk))
  }

  /** The section of `run` that handles an exception. */
  function Fail(q: Queue, id: string, error: string, now: real, disk: Disk): Turn {
    var at := Find(q.jobs, id);
    if at.None? then Turn(q, UnknownJob)
    else
      var job := Failed(q.jobs[at.value], error, now);
      Turn(Save(q.jobs[at.value := job], q, disk), Answer(Record(job), disk))
  }

  function Cancel(q: Queue, id: string, now: real, disk: Disk): Turn {
    var at := Find(q.jobs, id);
    if at.None? then Turn(q, UnknownJob)
    else if q.jobs[at.value].status != "queued" then Turn(q, OnlyQueued)
    else
      var job := Cancelled(q.jobs[at.value], now);
      Turn(Save(q.jobs[at.value := job], q, disk), Answer(Record(job), disk))
  }

  /** The readings of the clock and the fates of the writes in one call of `run`. */
  datatype Surroundings = Surroundings(begin: real, finish: real, fail: real, disks: (Disk, Disk, Disk))

  /** The sections of `run` after the runner. */
  function AfterRunner(q: Queue, id: string, outcome: Outcome, s: Surroundings): Turn {
    match outcome
    case Raised(error) => Fail(q, id, error, s.fail, s.disks.2)
    case Returned(p) =>
      var finished := Finish(q, id, p, s.finish, s.disks.1);
      if finished.reply.SaveFailed? then Fail(finished.queue, id, finished.reply.error, s.fail, s.disks.2)
      else finished
  }

  /** A whole `run` that nothing else comes between. */
  function RunAlone(q: Queue, id: string, runner: Job -> Outcome, s: Surroundings): Turn {
    var begun := Begin(q, id, s.begin, s.disks.0);
    if begun.reply.Go? then AfterRunner(begun.queue, id, runner(begun.reply.job), s) else begun
  }

  class AutonomyJobQueue {
    var jobs: seq<Job>
    var file: seq<Job>

    function State(): Queue reads this { Queue(jobs, file) }

    /** `_load` */
    constructor (stored: seq<Job>)
      ensures State() == Queue(stored, stored)
    {
      jobs, file := stored, stored;
    }

    method WriteFile(disk: Disk)
      modifies this`file
      ensures file == if disk.None? then jobs else old(file)
    {
      if disk.None? { file := jobs; }
    }

    /** `_find_mutable` */
    method FindMutable(id: string) returns (at: Option<nat>)
      ensures at == Find(jobs, id)
    {
      for i := 0 to |jobs|
        invariant Find(jobs, id) == FindFrom(jobs, id, i)
      {
        if jobs[i].id == id { return Some(i); }
      }
      return None;
    }

    method AddJob(id: string, request: Request, now: real, disk: Disk) returns (reply: Reply)
      modifies this
      ensures Turn(State(), reply) == Enqueue(old(State()), NewJob(id, request, now), disk)
    {
      var job := NewJob(id, request, now);
      jobs := jobs + [job];
      WriteFile(disk);
      reply := if disk.None? then Record(job) else SaveFailed(disk.value);
    }

    method BeginRun(id: string, now: real, disk: Disk) returns (reply: Reply)
      modifies this
      ensures Turn(State(), reply) == Begin(old(State()), id, now, disk)
    {
      var at := FindMutable(id);
      if at.None? { return UnknownJob; }
      var i := at.value;
      if jobs[i].status != "queued" { return Record(jobs[i]); }
      jobs := jobs[i := jobs[i].(status := "running", startedAt := Some(now))];
      WriteFile(disk);
      reply := if disk.None? then Go(jobs[i]) else SaveFailed(disk.value);
    }

    method FinishRun(id: string, p: Payload, now: real, disk: Disk) returns (reply: Reply)
      modifies this
      ensures Turn(State(), reply) == Finish(old(State()), id, p, now, disk)
    {
      var at := FindMutable(id);
      if at.None? { return UnknownJob; }
      var i := at.value;
      jobs := jobs[i := jobs[i].(status := FinalStatus(p), result := Some(p), error := None, finishedAt := Some(now))];
      WriteFile(disk);
      reply := if disk.None? then Record(jobs[i]) else SaveFailed(disk.value);
    }

    method FailRun(id: string, error: string, now: real, disk: Disk) returns (reply: Reply)
      modifies this
      ensures Turn(State(), reply) == Fail(old(State()), id, error, now, disk)
    {
      var at := FindMutable(id);
      if at.None? { return UnknownJob; }
      var i := at.value;
      jobs := jobs[i := jobs[i].(status := "error", error := Some(error), finishedAt := Some(now))];
      WriteFile(disk);
      reply := if disk.None? then Record(jobs[i]) else SaveFailed(disk.value);
    }

    method Run(id: string, runner: Job -> Outcome, s: Surroundings) returns (reply: Reply)
      modifies this
      ensures Turn(State(), reply) == RunAlone(old(State()), id, runner, s)
    {
      reply := BeginRun(id, s.begin, s.disks.0);
      if !reply.Go? { return; }
      match runner(reply.job)
      case Raised(error) => reply := FailRun(id, error, s.fail, s.disks.2);
      case Returned(p) =>
        reply := FinishRun(id, p, s.finish, s.disks.1);
        if reply.SaveFailed? { reply := FailRun(id, reply.error, s.fail, s.disks.2); }
    }

    method RunNext(runner: Job -> Outcome, s: Surroundings) returns (reply: Reply)
      modifies this
      ensures var q := old(State()); var first := FirstQueued(q.jobs, 0);
              Turn(State(), reply) == if first.None? then Turn(q, NoJob)
                                      else RunAlone(q, q.jobs[first.value].id, runner, s)
    {
      for i := 0 to |jobs|
        invariant jobs == old(jobs) && file == old(file)
        invariant FirstQueued(jobs, 0) == FirstQueued(jobs, i)
      {
        if jobs[i].status == "queued" {
          reply := Run(jobs[i].id, runner, s);
          return;
        }
      }
      return NoJob;
    }

    method CancelJob(id: string, now: real, disk: Disk) returns (reply: Reply)
      modifies this
      ensures Turn(State(), reply) == Cancel(old(State()), id, now, disk)
    {
      var at := FindMutable(id);
      if at.None? { return UnknownJob; }
      var i := at.value;
      if jobs[i].status != "queued" { return OnlyQueued; }
      jobs := jobs[i := jobs[i].(status := "cancelled", finishedAt := Some(now))];
      WriteFile(disk);
      reply := if disk.None? then Record(jobs[i]) else SaveFailed(disk.value);
    }
  }
}
