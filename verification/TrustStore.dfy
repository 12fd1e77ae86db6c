/** The trust runtime store: run index, approval checkpoints and one journal per run
    (ghostchimera/trust_runtime.py).

    Every operation is specified by the sequence of states it leaves on disk, one per file
    write, so that a crash between two writes is a state of that sequence.  The class methods
    are proved to leave exactly these states, in this order. */
module TrustStore {
  import opened Wrappers
  import opened Redaction
  import opened HashChain
  import opened Text

  // ---------- what is on disk ----------

  datatype Run = Run(status: string, stepCount: nat, pending: nat)

  datatype Decision = Approved | Denied {
    function Text(): string { if Approved? then "approved" else "denied" }
  }

  datatype Review = Pending | Resolved(decision: Decision, reviewer: string)

  datatype Checkpoint = Checkpoint(runId: string, review: Review, authorityId: string)

  datatype State = State(
    index: map<string, Run>,
    approvals: map<string, Checkpoint>,
    journals: map<string, seq<Line>>,
    tools: map<string, seq<Line>>)
  {
    function Lines(runId: string): seq<Line> { if runId in journals then journals[runId] else [] }
    function ToolLines(runId: string): seq<Line> { if runId in tools then tools[runId] else [] }
  }

  const EMPTY := State(map[], map[], map[], map[])

  /** The redactor and the digests, the SHA-1 prefix of a text, and the texts of a clock reading
      (`str(now)` and `str(int(now))`).  A reading is a whole number of clock ticks. */
  datatype Env = Env(
    codec: Codec,
    sha: string -> string,
    clockText: int -> string,
    secondText: int -> string)
  {
    function Scrub(s: string): string { codec.redactor.scrub(s) }
  }

  /** The caller's part of one journal record.  The two references and the policy stand for what
      `_safe_snippet` and the policy dictionary contribute; no rule of the store loads them. */
  datatype Refs = Refs(input: Json, output: Json, policy: Json)

  datatype Step = Step(
    stepType: string, status: string, refs: Refs, key: string, retryable: bool, durationMs: real, error: string)

  // ---------- keys the store makes for itself ----------

  function CreatedKey(runId: string): string { runId + ":created" }
  function ToolKey(runId: string, tool: string, argsId: string): string { runId + ":tool:" + tool + ":" + argsId }
  function ApprovalKey(runId: string, approvalId: string): string { runId + ":approval:" + approvalId }
  function ResolvedKey(runId: string, approvalId: string): string { runId + ":approval_resolved:" + approvalId }
  function ResumeKey(runId: string, stepId: string, second: string): string {
    runId + ":resume:" + stepId + ":" + second
  }

  // ---------- journal records ----------

  const STEP_ID := "step_id"
  const STATUS := "status"
  const KEY := "idempotency_key"
  const TIMESTAMP := "timestamp"

  function RawFields(env: Env, runId: string, s: Step, now: int): Record {
    map[
      "run_id" := Str(runId),
      STEP_ID := Str(StepId(env, runId, s, now)),
      "step_type" := Str(s.stepType),
      STATUS := Str(s.status),
      "input_ref" := s.refs.input,
      "output_ref" := s.refs.output,
      "policy_decision" := s.refs.policy,
      KEY := Str(s.key),
      "retryable" := Bool(s.retryable),
      TIMESTAMP := Num(now as real),
      "duration_ms" := Num(s.durationMs),
      "error" := Str(s.error)
    ]
  }

  /** `RunStepRecord(...).to_dict()` */
  function StepFields(env: Env, runId: string, s: Step, now: int): Record {
    Redact(Obj(RawFields(env, runId, s, now)), env.codec.redactor).fields
  }

  /** What `stable_id` joins before it hashes. */
  function StepIdText(runId: string, stepType: string, status: string, tag: string): string {
    runId + ['|'] + (stepType + ['|'] + (status + ['|'] + tag))
  }

  function StepId(env: Env, runId: string, s: Step, now: int): string {
    env.sha(StepIdText(runId, s.stepType, s.status, if s.key != "" then s.key else env.clockText(now)))
  }

  function Records(env: Env, st: State, runId: string): seq<Record> { Read(st.Lines(runId), env.codec) }

  /** `_find_step_by_idempotency` */
  function Find(records: seq<Record>, key: string): (r: Option<Record>)
    ensures r.Some? ==> r.value in records && Field(r.value, KEY) == Str(key)
    ensures r.None? <==> forall i :: 0 <= i < |records| ==> Field(records[i], KEY) != Str(key)
  {
    if records == [] then None
    else if Field(records[0], KEY) == Str(key) then Some(records[0])
    else Find(records[1..], key)
  }

  // ---------- reading and writing the two dictionaries ----------

  /** Both dictionaries are redacted whenever they are written. */
  function WriteIndex(env: Env, index: map<string, Run>): map<string, Run> {
    map r | r in index :: index[r].(status := env.Scrub(index[r].status))
  }

  function WriteApprovals(env: Env, approvals: map<string, Checkpoint>): map<string, Checkpoint> {
    map id | id in approvals :: RedactCheckpoint(env, approvals[id])
  }

  function RedactCheckpoint(env: Env, c: Checkpoint): Checkpoint {
    Checkpoint(env.Scrub(c.runId),
               if c.review.Pending? then Pending else Resolved(c.review.decision, env.Scrub(c.review.reviewer)),
               env.Scrub(c.authorityId))
  }

  /** The pending checkpoints that `pending_approvals` attributes to a run. */
  function PendingOf(env: Env, approvals: map<string, Checkpoint>, runId: string): set<string> {
    set id | id in approvals && approvals[id].review.Pending? && env.Scrub(approvals[id].runId) == runId
  }

  // ---------- loads that fail ----------

  /** Whether a load of the run index and one of the approvals file succeed.  A load that fails
      returns the empty dictionary, as if there were no file. */
  datatype Load = Load(index: bool, approvals: bool)

  const READ := Load(true, true)

  /** The loads of one operation, in its own body and in the two calls of `_touch_run` that it may
      make: within `record_step`, and at its end.  A load it does not make counts as successful. */
  datatype Loads = Loads(own: Load, step: Load, touch: Load)

  const ALL_READ := Loads(READ, READ, READ)

  /** What a load returns. */
  function Loaded<T>(file: map<string, T>, read: bool): map<string, T> { if read then file else map[] }

  // ---------- operations, as the states they leave on disk ----------

  function Last(st: State, states: seq<State>): State {
    if states == [] then st else states[|states| - 1]
  }

  /** `_touch_run`: a run that is not in the index it load is left alone. */
  function TouchStates(env: Env, st: State, runId: string, status: string, increment: bool,
                       load: Load := READ): seq<State>
  {
    if runId !in Loaded(st.index, load.index) then []
    else
      var run := st.index[runId];
      var touched := Run(
        if status != "" then status else run.status,
        if increment then run.stepCount + 1 else run.stepCount,
        |PendingOf(env, Loaded(st.approvals, load.approvals), runId)|);
      [st.(index := WriteIndex(env, st.index[runId := touched]))]
  }

  function AppendStep(env: Env, st: State, runId: string, s: Step, now: int): State {
    var r := WithHash(Records(env, st, runId), StepFields(env, runId, s, now), env.codec);
    st.(journals := st.journals[runId := st.Lines(runId) + [LineFor(r, env.codec)]])
  }

  /** The key is in use: the step is not recorded again. */
  predicate AlreadyRecorded(env: Env, st: State, runId: string, key: string) {
    key != "" && Find(Records(env, st, runId), key).Some?
  }

  /** `record_step` */
  function RecordStepStates(env: Env, st: State, runId: string, s: Step, now: int, load: Load := READ): seq<State> {
    if AlreadyRecorded(env, st, runId, s.key) then []
    else
      var appended := AppendStep(env, st, runId, s, now);
      [appended] + TouchStates(env, appended, runId, s.status, true, load)
  }

  function RecordStepResult(env: Env, st: State, runId: string, s: Step, now: int): Record {
    if AlreadyRecorded(env, st, runId, s.key) then Find(Records(env, st, runId), s.key).value
    else WithHash(Records(env, st, runId), StepFields(env, runId, s, now), env.codec)
  }

  function CreatedStep(runId: string, refs: Refs): Step {
    Step("run_created", "ok", refs, CreatedKey(runId), false, 0.0, "")
  }

  /** `create_run`, given the id that `unique_id` returned. */
  function CreateRunStates(env: Env, st: State, runId: string, refs: Refs, now: int, loads: Loads := ALL_READ)
      : seq<State>
  {
    var index := Loaded(st.index, loads.own.index);
    var listed := st.(index := WriteIndex(env, index[runId := Run("running", 0, 0)]));
    [listed] + RecordStepStates(env, listed, runId, CreatedStep(runId, refs), now, loads.step)
  }

  /** A use of a tool as the caller reports it: the step it belongs to, when the caller knows one,
      the digest of its arguments, and whether its envelope carries violations. */
  datatype ToolUse = ToolUse(stepId: string, tool: string, argsId: string, violations: bool, refs: Refs)

  /** The step of `record_tool_call`: blocked when the envelope carries violations. */
  function ToolStep(runId: string, use: ToolUse): Step {
    Step("tool_call", if use.violations then "blocked" else "ok", use.refs, ToolKey(runId, use.tool, use.argsId),
         use.violations, 0.0, "")
  }

  /** A tool call names the step the caller gave, or the recorded one. */
  function RawCall(runId: string, use: ToolUse, recorded: Record, now: int): Record {
    map[
      "run_id" := Str(runId),
      STEP_ID := if use.stepId != "" then Str(use.stepId) else Field(recorded, STEP_ID),
      "tool_name" := Str(use.tool),
      "arguments" := use.refs.input,
      "result" := use.refs.output,
      "envelope" := use.refs.policy,
      TIMESTAMP := Num(now as real)
    ]
  }

  /** `ToolCallRecord(...).to_dict()` */
  function CallFields(env: Env, runId: string, use: ToolUse, recorded: Record, now: int): Record {
    Redact(Obj(RawCall(runId, use, recorded, now)), env.codec.redactor).fields
  }

  function AppendCall(env: Env, st: State, runId: string, call: Record): State {
    st.(tools := st.tools[runId := st.ToolLines(runId) + [LineFor(call, env.codec)]])
  }

  function ToolCallRecord(env: Env, st: State, runId: string, use: ToolUse, now: int): Record {
    CallFields(env, runId, use, RecordStepResult(env, st, runId, ToolStep(runId, use), now), now)
  }

  /** `record_tool_call`: the step in the journal, unless its key is in use, and then the call in
      the tool file, always. */
  function ToolCallStates(env: Env, st: State, runId: string, use: ToolUse, now: int, load: Load := READ): seq<State> {
    var steps := RecordStepStates(env, st, runId, ToolStep(runId, use), now, load);
    steps + [AppendCall(env, Last(st, steps), runId, ToolCallRecord(env, st, runId, use, now))]
  }

  function CheckpointStep(runId: string, approvalId: string, refs: Refs): Step {
    Step("approval_checkpoint", "pending_approval", refs, ApprovalKey(runId, approvalId), false, 0.0, "")
  }

  /** `create_approval`, given the id that `unique_id` returned. */
  function CreateApprovalStates(env: Env, st: State, runId: string, approvalId: string, authorityId: string,
                                refs: Refs, now: int, loads: Loads := ALL_READ): seq<State>
  {
    var checkpoint := Checkpoint(runId, Pending, authorityId);
    var approvals := Loaded(st.approvals, loads.own.approvals);
    var filed := st.(approvals := WriteApprovals(env, approvals[approvalId := checkpoint]));
    var s := CheckpointStep(runId, approvalId, refs);
    var recorded := [filed] + RecordStepStates(env, filed, runId, s, now, loads.step);
    recorded + TouchStates(env, Last(st, recorded), runId, "pending_approval", false, loads.touch)
  }

  /** What the canonical authority answers when it is asked to decide; an exception or a reply
      that is no dictionary is some other state. */
  datatype Authority = NotSupplied | Answers(state: string)

  predicate Confirmed(c: Checkpoint, d: Decision, authority: Authority) {
    authority.NotSupplied? || c.authorityId == "" || authority.state == (if d.Approved? then "APPROVED" else "DENIED")
  }

  function ParseDecision(text: string): Option<Decision> {
    var d := Lower(Strip(text));
    if d == "approved" then Some(Approved) else if d == "denied" then Some(Denied) else None
  }

  datatype ResolveOutcome = BadDecision | UnknownApproval | AlreadyResolved | NotConfirmed | Finalised

  function ResolveResult(st: State, approvalId: string, decision: string, authority: Authority, read: bool := true)
      : ResolveOutcome
  {
    var d := ParseDecision(decision);
    if d.None? then BadDecision
    else if approvalId !in Loaded(st.approvals, read) then UnknownApproval
    else if !st.approvals[approvalId].review.Pending? then AlreadyResolved
    else if !Confirmed(st.approvals[approvalId], d.value, authority) then NotConfirmed
    else Finalised
  }

  function ResolvedStep(runId: string, approvalId: string, d: Decision, refs: Refs): Step {
    Step("approval_resolved", d.Text(), refs, ResolvedKey(runId, approvalId), false, 0.0, "")
  }

  /** `resolve_approval` */
  function ResolveApprovalStates(env: Env, st: State, approvalId: string, decision: string, reviewer: string,
                                 authority: Authority, refs: Refs, now: int, loads: Loads := ALL_READ): seq<State>
  {
    if !ResolveResult(st, approvalId, decision, authority, loads.own.approvals).Finalised? then []
    else
      var d := ParseDecision(decision).value;
      var checkpoint := st.approvals[approvalId].(review := Resolved(d, reviewer));
      var runId := checkpoint.runId;
      var filed := st.(approvals := WriteApprovals(env, st.approvals[approvalId := checkpoint]));
      var s := ResolvedStep(runId, approvalId, d, refs);
      var recorded := [filed] + RecordStepStates(env, filed, runId, s, now, loads.step);
      var status := if d.Approved? then "resumable" else "denied";
      recorded + TouchStates(env, Last(st, recorded), runId, status, false, loads.touch)
  }

  const RESUMABLE: set<string> := {"pending_approval", "retryable_failure", "interrupted"}

  datatype ResumeOutcome = RunNotFound | WaitingForApproval | NotAtBoundary | Resumes(fromStep: string)

  /** What `resume_run` decides from the three views. */
  function ResumeResult(env: Env, st: State, runId: string, load: Load := READ): ResumeOutcome {
    if runId !in Loaded(st.index, load.index) then RunNotFound
    else if PendingOf(env, Loaded(st.approvals, load.approvals), runId) != {} then WaitingForApproval
    else
      var status := env.Scrub(st.index[runId].status);
      var records := Records(env, st, runId);
      var last: Record := if records == [] then map[] else records[|records| - 1];
      var lastStatus := Field(last, STATUS);
      if status !in RESUMABLE && !(lastStatus.Str? && lastStatus.s in RESUMABLE) && status != "resumable" then
        NotAtBoundary
      else
        var from := env.codec.Text(Field(last, STEP_ID));
        Resumes(if from == "" then "start" else from)
  }

  function ResumedStep(runId: string, fromStep: string, second: string, refs: Refs): Step {
    Step("run_resumed", "resumed", refs, ResumeKey(runId, fromStep, second), false, 0.0, "")
  }

  /** `resume_run` */
  function ResumeRunStates(env: Env, st: State, runId: string, refs: Refs, now: int, loads: Loads := ALL_READ)
      : seq<State>
  {
    var outcome := ResumeResult(env, st, runId, loads.own);
    if !outcome.Resumes? then []
    else
      var s := ResumedStep(runId, outcome.fromStep, env.secondText(now), refs);
      var recorded := RecordStepStates(env, st, runId, s, now, loads.step);
      recorded + TouchStates(env, Last(st, recorded), runId, "running", false, loads.touch)
  }

  // ---------- runs of the store ----------

  datatype Op =
    | CreateRun(runId: string, refs: Refs)
    | RecordStep(runId: string, step: Step)
    | RecordToolCall(runId: string, use: ToolUse)
    | CreateApproval(runId: string, approvalId: string, authorityId: string, refs: Refs)
    | ResolveApproval(approvalId: string, decision: string, reviewer: string, authority: Authority, refs: Refs)
    | ResumeRun(runId: string, refs: Refs)

  /** An operation, the clock reading it sees, and which of its loads succeed. */
  datatype Call = Call(op: Op, now: int, loads: Loads := ALL_READ)

  function States(env: Env, st: State, call: Call): seq<State> {
    match call.op
    case CreateRun(runId, refs) => CreateRunStates(env, st, runId, refs, call.now, call.loads)
    case RecordStep(runId, step) => RecordStepStates(env, st, runId, step, call.now, call.loads.step)
    case RecordToolCall(runId, use) => ToolCallStates(env, st, runId, use, call.now, call.loads.step)
    case CreateApproval(runId, approvalId, authorityId, refs) =>
      CreateApprovalStates(env, st, runId, approvalId, authorityId, refs, call.now, call.loads)
    case ResolveApproval(approvalId, decision, reviewer, authority, refs) =>
      ResolveApprovalStates(env, st, approvalId, decision, reviewer, authority, refs, call.now, call.loads)
    case ResumeRun(runId, refs) => ResumeRunStates(env, st, runId, refs, call.now, call.loads)
  }

  function Next(env: Env, st: State, call: Call): State { Last(st, States(env, st, call)) }

  function After(env: Env, st: State, calls: seq<Call>): State
    decreases |calls|
  {
    if calls == [] then st else After(env, Next(env, st, calls[0]), calls[1..])
  }

  // ---------- the store itself ----------

  class TrustRuntimeStore {
    const env: Env
    var index: map<string, Run>
    var approvals: map<string, Checkpoint>
    var journals: map<string, seq<Line>>
    var tools: map<string, seq<Line>>
    /** The disk after every file write so far, in order. */
    ghost var trace: seq<State>

    function Disk(): State
      reads this
    {
      State(index, approvals, journals, tools)
    }

    constructor (env: Env)
      ensures Disk() == EMPTY && this.env == env && trace == []
    {
      this.env := env;
      index, approvals, journals, tools := map[], map[], map[], map[];
      trace := [];
    }

    /** The four ways the store changes a file. */
    method SaveIndex(runs: map<string, Run>)
      modifies this`index, this`trace
      ensures Disk() == old(Disk()).(index := WriteIndex(env, runs)) && trace == old(trace) + [Disk()]
    {
      index := WriteIndex(env, runs);
      trace := trace + [Disk()];
    }

    method SaveApprovals(checkpoints: map<string, Checkpoint>)
      modifies this`approvals, this`trace
      ensures Disk() == old(Disk()).(approvals := WriteApprovals(env, checkpoints)) && trace == old(trace) + [Disk()]
    {
      approvals := WriteApprovals(env, checkpoints);
      trace := trace + [Disk()];
    }

    method AppendLine(runId: string, line: Line)
      modifies this`journals, this`trace
      ensures Disk() == old(Disk()).(journals := old(journals)[runId := old(Disk()).Lines(runId) + [line]])
      ensures trace == old(trace) + [Disk()]
    {
      var lines := if runId in journals then journals[runId] else [];
      journals := journals[runId := lines + [line]];
      trace := trace + [Disk()];
    }

    method AppendToolLine(runId: string, line: Line)
      modifies this`tools, this`trace
      ensures Disk() == old(Disk()).(tools := old(tools)[runId := old(Disk()).ToolLines(runId) + [line]])
      ensures trace == old(trace) + [Disk()]
    {
      var lines := if runId in tools then tools[runId] else [];
      tools := tools[runId := lines + [line]];
      trace := trace + [Disk()];
    }

    method TouchRun(runId: string, status: string, increment: bool, load: Load)
      modifies this`index, this`trace
      ensures Disk() == Last(old(Disk()), TouchStates(env, old(Disk()), runId, status, increment, load))
      ensures trace == old(trace) + TouchStates(env, old(Disk()), runId, status, increment, load)
    {
      var runs := Loaded(index, load.index);
      if runId !in runs { return; }
      var run := runs[runId];
      if status != "" { run := run.(status := status); }
      if increment { run := run.(stepCount := run.stepCount + 1); }
      run := run.(pending := |PendingOf(env, Loaded(approvals, load.approvals), runId)|);
      SaveIndex(runs[runId := run]);
    }

    method RecordStep(runId: string, s: Step, now: int, load: Load) returns (record: Record)
      modifies this`index, this`journals, this`trace
      ensures Disk() == Last(old(Disk()), RecordStepStates(env, old(Disk()), runId, s, now, load))
      ensures trace == old(trace) + RecordStepStates(env, old(Disk()), runId, s, now, load)
      ensures record == RecordStepResult(env, old(Disk()), runId, s, now)
    {
      hide TouchStates, StepFields, WithHash, Read, Redact;
      ghost var before := Disk();
      var records := Read(if runId in journals then journals[runId] else [], env.codec);
      if s.key != "" {
        var existing := Find(records, s.key);
        if existing.Some? { return existing.value; }
      }
      record := WithHash(records, StepFields(env, runId, s, now), env.codec);
      AppendLine(runId, LineFor(record, env.codec));
      ghost var appended := Disk();
      assert appended == AppendStep(env, before, runId, s, now);
      TouchRun(runId, s.status, true, load);
    }

    method CreateRun(runId: string, refs: Refs, now: int, loads: Loads)
      modifies this`index, this`journals, this`trace
      ensures Disk() == Last(old(Disk()), CreateRunStates(env, old(Disk()), runId, refs, now, loads))
      ensures trace == old(trace) + CreateRunStates(env, old(Disk()), runId, refs, now, loads)
    {
      hide Read, Redact, StepFields, TouchStates, RecordStepStates;
      SaveIndex(Loaded(index, loads.own.index)[runId := Run("running", 0, 0)]);
      var _ := RecordStep(runId, CreatedStep(runId, refs), now, loads.step);
    }

    method RecordToolCall(runId: string, use: ToolUse, now: int, load: Load) returns (call: Record)
      modifies this`index, this`journals, this`tools, this`trace
      ensures Disk() == Last(old(Disk()), ToolCallStates(env, old(Disk()), runId, use, now, load))
      ensures trace == old(trace) + ToolCallStates(env, old(Disk()), runId, use, now, load)
      ensures call == ToolCallRecord(env, old(Disk()), runId, use, now)
    {
      hide Redact, StepFields, CallFields, RecordStepStates, RecordStepResult;
      var step := RecordStep(runId, ToolStep(runId, use), now, load);
      call := CallFields(env, runId, use, step, now);
      AppendToolLine(runId, LineFor(call, env.codec));
    }

    method CreateApproval(runId: string, approvalId: string, authorityId: string, refs: Refs, now: int, loads: Loads)
      modifies this
      ensures Disk() == Last(old(Disk()),
                             CreateApprovalStates(env, old(Disk()), runId, approvalId, authorityId, refs, now, loads))
      ensures trace == old(trace)
                       + CreateApprovalStates(env, old(Disk()), runId, approvalId, authorityId, refs, now, loads)
    {
      hide Read, Redact, StepFields, Strip, TouchStates, RecordStepStates, WriteApprovals, WithHash, RecordStepResult,
           CheckpointStep;
      var checkpoints := Loaded(approvals, loads.own.approvals);
      SaveApprovals(checkpoints[approvalId := Checkpoint(runId, Pending, authorityId)]);
      var _ := RecordStep(runId, CheckpointStep(runId, approvalId, refs), now, loads.step);
      TouchRun(runId, "pending_approval", false, loads.touch);
    }

    method ResolveApproval(approvalId: string, decision: string, reviewer: string, authority: Authority,
                           refs: Refs, now: int, loads: Loads)
        returns (outcome: ResolveOutcome)
      modifies this
      ensures outcome == ResolveResult(old(Disk()), approvalId, decision, authority, loads.own.approvals)
      ensures Disk() == Last(old(Disk()),
                  ResolveApprovalStates(env, old(Disk()), approvalId, decision, reviewer, authority, refs, now, loads))
      ensures trace == old(trace) + ResolveApprovalStates(env, old(Disk()), approvalId, decision, reviewer, authority,
                                                          refs, now, loads)
    {
      hide Read, Redact, StepFields, Strip, TouchStates, RecordStepStates, WriteApprovals, ResolvedStep,
           ParseDecision, WithHash, RecordStepResult;
      ghost var before := Disk();
      var parsed := ParseDecision(decision);
      if parsed.None? { return BadDecision; }
      var checkpoints := Loaded(approvals, loads.own.approvals);
      if approvalId !in checkpoints { return UnknownApproval; }
      var checkpoint := checkpoints[approvalId];
      if !checkpoint.review.Pending? { return AlreadyResolved; }
      var d := parsed.value;
      checkpoint := checkpoint.(review := Resolved(d, reviewer));
      if authority.Answers? && checkpoint.authorityId != "" {
        var want := if d.Approved? then "APPROVED" else "DENIED";
        if authority.state != want { return NotConfirmed; }
      }
      assert ResolveResult(before, approvalId, decision, authority, loads.own.approvals).Finalised?;
      hide ResolveResult;
      SaveApprovals(checkpoints[approvalId := checkpoint]);
      var _ := RecordStep(checkpoint.runId, ResolvedStep(checkpoint.runId, approvalId, d, refs), now, loads.step);
      TouchRun(checkpoint.runId, if d.Approved? then "resumable" else "denied", false, loads.touch);
      return Finalised;
    }

    /** What `resume_run` finds in the run, its checkpoints and its last step. */
    method DecideResume(runId: string, load: Load) returns (outcome: ResumeOutcome)
      ensures outcome == ResumeResult(env, Disk(), runId, load)
    {
      hide Read, Redact, PendingOf;
      if runId !in Loaded(index, load.index) { return RunNotFound; }
      if PendingOf(env, Loaded(approvals, load.approvals), runId) != {} { return WaitingForApproval; }
      var status := env.Scrub(index[runId].status);
      var steps := Read(if runId in journals then journals[runId] else [], env.codec);
      var last: Record := if steps == [] then map[] else steps[|steps| - 1];
      var lastStatus := Field(last, STATUS);
      if status !in RESUMABLE && !(lastStatus.Str? && lastStatus.s in RESUMABLE) && status != "resumable" {
        return NotAtBoundary;
      }
      var from := env.codec.Text(Field(last, STEP_ID));
      outcome := Resumes(if from == "" then "start" else from);
    }

    method ResumeRun(runId: string, refs: Refs, now: int, loads: Loads) returns (outcome: ResumeOutcome)
      modifies this`index, this`journals, this`trace
      ensures outcome == ResumeResult(env, old(Disk()), runId, loads.own)
      ensures Disk() == Last(old(Disk()), ResumeRunStates(env, old(Disk()), runId, refs, now, loads))
      ensures trace == old(trace) + ResumeRunStates(env, old(Disk()), runId, refs, now, loads)
    {
      hide ResumeResult, ResumedStep, TouchStates, RecordStepStates, RecordStepResult;
      outcome := DecideResume(runId, loads.own);
      if outcome.Resumes? {
        var _ := RecordStep(runId, ResumedStep(runId, outcome.fromStep, env.secondText(now), refs), now, loads.step);
        TouchRun(runId, "running", false, loads.touch);
      }
    }
  }
}
