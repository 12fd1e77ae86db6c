/** What each operation writes, state by state: at most one journal record, that of the step it asks
    for, and at most one new approvals file, which comes first.  Whichever loads fail. */
module TrustSteps {
  import opened Wrappers
  import opened Redaction
  import opened HashChain
  import opened TrustStore
  import opened Text
  import opened TrustCrash
  import opened TrustViews

  // ---------- journals only grow ----------

  ghost predicate Grows(env: Env, st: State, t: State) { forall r :: Records(env, st, r) <= Records(env, t, r) }

  ghost predicate AllGrow(env: Env, st: State, states: seq<State>) { forall t :: t in states ==> Grows(env, st, t) }

  lemma SameJournalsGrow(env: Env, base: State, st: State, t: State)
    requires Grows(env, base, st) && t.journals == st.journals
    ensures Grows(env, base, t)
  {
    SameJournals(env, st, t);
  }

  lemma TouchGrows(env: Env, base: State, st: State, runId: string, status: string, increment: bool, load: Load)
    requires Grows(env, base, st)
    ensures AllGrow(env, base, TouchStates(env, st, runId, status, increment, load))
  {
    forall t | t in TouchStates(env, st, runId, status, increment, load) ensures Grows(env, base, t) {
      SameJournalsGrow(env, base, st, t);
    }
  }

  lemma RecordStepGrows(env: Env, base: State, st: State, runId: string, s: Step, now: int, load: Load := READ)
    requires env.codec.KeepsDigests() && CrashSafe(env, st) && Grows(env, base, st)
    ensures AllGrow(env, base, RecordStepStates(env, st, runId, s, now, load))
    ensures Grows(env, base, Last(st, RecordStepStates(env, st, runId, s, now, load)))
  {
    hide TouchStates, Read, Find, StepFields, WithHash;
    var steps := RecordStepStates(env, st, runId, s, now, load);
    if !AlreadyRecorded(env, st, runId, s.key) {
      AppendStepRecords(env, st, runId, s, now);
      TouchGrows(env, base, AppendStep(env, st, runId, s, now), runId, s.status, true, load);
    }
    assert steps != [] ==> Last(st, steps) in steps;
  }

  lemma FiledGrows(env: Env, st: State, filed: State, runId: string, s: Step, now: int, status: string, loads: Loads)
    requires env.codec.KeepsDigests() && CrashSafe(env, filed) && filed.journals == st.journals
    ensures var recorded := [filed] + RecordStepStates(env, filed, runId, s, now, loads.step);
            AllGrow(env, st, recorded + TouchStates(env, Last(st, recorded), runId, status, false, loads.touch))
  {
    hide RecordStepStates, TouchStates;
    SameJournalsGrow(env, st, st, filed);
    RecordStepGrows(env, st, filed, runId, s, now, loads.step);
    var recorded := [filed] + RecordStepStates(env, filed, runId, s, now, loads.step);
    assert Last(st, recorded) in recorded;
    TouchGrows(env, st, Last(st, recorded), runId, status, false, loads.touch);
  }

  lemma ResumeGrows(env: Env, st: State, runId: string, s: Step, now: int, loads: Loads)
    requires env.codec.KeepsDigests() && CrashSafe(env, st)
    ensures var steps := RecordStepStates(env, st, runId, s, now, loads.step);
            AllGrow(env, st, steps + TouchStates(env, Last(st, steps), runId, "running", false, loads.touch))
  {
    hide RecordStepStates, TouchStates;
    var steps := RecordStepStates(env, st, runId, s, now, loads.step);
    RecordStepGrows(env, st, st, runId, s, now, loads.step);
    TouchGrows(env, st, Last(st, steps), runId, "running", false, loads.touch);
  }

  /** The run index as `create_run` first writes it. */
  function ListRun(env: Env, st: State, runId: string, read: bool): State {
    st.(index := WriteIndex(env, Loaded(st.index, read)[runId := Run("running", 0, 0)]))
  }

  /** The approvals file as an operation first writes it. */
  function FileCheckpoint(env: Env, st: State, id: string, c: Checkpoint, read: bool): State {
    st.(approvals := WriteApprovals(env, Loaded(st.approvals, read)[id := c]))
  }

  lemma ListedSafe(env: Env, st: State, runId: string, read: bool)
    requires CrashSafe(env, st)
    ensures CrashSafe(env, ListRun(env, st, runId, read))
  {
    SameJournalsSafe(env, st, ListRun(env, st, runId, read));
  }

  lemma FiledSafe(env: Env, st: State, id: string, c: Checkpoint, read: bool)
    requires CrashSafe(env, st)
    ensures CrashSafe(env, FileCheckpoint(env, st, id, c, read))
  {
    SameJournalsSafe(env, st, FileCheckpoint(env, st, id, c, read));
  }

  lemma StatesGrow(env: Env, st: State, call: Call)
    requires env.codec.KeepsDigests() && CrashSafe(env, st)
    ensures AllGrow(env, st, States(env, st, call)) && Grows(env, st, Next(env, st, call))
  {
    hide RecordStepStates, TouchStates, Read, ParseDecision, Confirmed, ToolCallRecord, Grows, CrashSafe,
         WriteApprovals,
         WriteIndex, ResumeResult;
    var op, now, loads := call.op, call.now, call.loads;
    GrowsIsReflexive(env, st);
    match op
    case CreateRun(runId, refs) =>
      var listed := ListRun(env, st, runId, loads.own.index);
      ListedSafe(env, st, runId, loads.own.index);
      SameJournalsGrow(env, st, st, listed);
      RecordStepGrows(env, st, listed, runId, CreatedStep(runId, refs), now, loads.step);
    case RecordStep(runId, s) => RecordStepGrows(env, st, st, runId, s, now, loads.step);
    case RecordToolCall(runId, use) =>
      RecordStepGrows(env, st, st, runId, ToolStep(runId, use), now, loads.step);
      var done := Last(st, RecordStepStates(env, st, runId, ToolStep(runId, use), now, loads.step));
      SameJournalsGrow(env, st, done, AppendCall(env, done, runId, ToolCallRecord(env, st, runId, use, now)));
    case CreateApproval(runId, id, authorityId, refs) =>
      var c := Checkpoint(runId, Pending, authorityId);
      FiledSafe(env, st, id, c, loads.own.approvals);
      FiledGrows(env, st, FileCheckpoint(env, st, id, c, loads.own.approvals), runId, CheckpointStep(runId, id, refs),
                 now, "pending_approval", loads);
    case ResolveApproval(id, decision, reviewer, authority, refs) =>
      if ResolveResult(st, id, decision, authority, loads.own.approvals).Finalised? {
        var d := ParseDecision(decision).value;
        var c := st.approvals[id].(review := Resolved(d, reviewer));
        FiledSafe(env, st, id, c, true);
        FiledGrows(env, st, FileCheckpoint(env, st, id, c, true), c.runId, ResolvedStep(c.runId, id, d, refs), now,
                   if d.Approved? then "resumable" else "denied", loads);
      }
    case ResumeRun(runId, refs) =>
      var outcome := ResumeResult(env, st, runId, loads.own);
      if outcome.Resumes? {
        ResumeGrows(env, st, runId, ResumedStep(runId, outcome.fromStep, env.secondText(now), refs), now, loads);
      }
  }

  lemma GrowsIsReflexive(env: Env, st: State)
    ensures Grows(env, st, st)
  {
  }

  lemma TouchKeepsTools(env: Env, st: State, runId: string, status: string, increment: bool, load: Load)
    ensures forall t :: t in TouchStates(env, st, runId, status, increment, load) ==> t.tools == st.tools
  {
  }

  lemma StepsKeepToolFiles(env: Env, st: State, runId: string, s: Step, now: int, load: Load)
    ensures forall t :: t in RecordStepStates(env, st, runId, s, now, load) ==> t.tools == st.tools
    ensures Last(st, RecordStepStates(env, st, runId, s, now, load)).tools == st.tools
  {
    hide Read, Find, StepFields, WithHash, TouchStates;
    TouchKeepsTools(env, AppendStep(env, st, runId, s, now), runId, s.status, true, load);
  }

  lemma FiledTools(env: Env, st: State, filed: State, runId: string, s: Step, now: int, status: string, loads: Loads)
    requires filed.tools == st.tools
    ensures var recorded := [filed] + RecordStepStates(env, filed, runId, s, now, loads.step);
            forall t :: t in recorded + TouchStates(env, Last(st, recorded), runId, status, false, loads.touch) ==>
              t.tools == st.tools
  {
    hide RecordStepStates, TouchStates;
    StepsKeepToolFiles(env, filed, runId, s, now, loads.step);
    var recorded := [filed] + RecordStepStates(env, filed, runId, s, now, loads.step);
    assert Last(st, recorded) in recorded;
    TouchKeepsTools(env, Last(st, recorded), runId, status, false, loads.touch);
  }

  /** Only `record_tool_call` writes a tool file. */
  lemma StatesKeepToolFiles(env: Env, st: State, call: Call)
    requires !call.op.RecordToolCall?
    ensures forall t :: t in States(env, st, call) ==> t.tools == st.tools
  {
    hide RecordStepStates, TouchStates, Read, ParseDecision, Confirmed, WriteApprovals, WriteIndex, ResumeResult;
    var op, now, loads := call.op, call.now, call.loads;
    match op
    case CreateRun(runId, refs) =>
      StepsKeepToolFiles(env, ListRun(env, st, runId, loads.own.index), runId, CreatedStep(runId, refs), now,
                         loads.step);
    case RecordStep(runId, s) => StepsKeepToolFiles(env, st, runId, s, now, loads.step);
    case CreateApproval(runId, id, authorityId, refs) =>
      var filed := FileCheckpoint(env, st, id, Checkpoint(runId, Pending, authorityId), loads.own.approvals);
      FiledTools(env, st, filed, runId, CheckpointStep(runId, id, refs), now, "pending_approval", loads);
    case ResolveApproval(id, decision, reviewer, authority, refs) =>
      if ResolveResult(st, id, decision, authority, loads.own.approvals).Finalised? {
        var d := ParseDecision(decision).value;
        var c := st.approvals[id].(review := Resolved(d, reviewer));
        FiledTools(env, st, FileCheckpoint(env, st, id, c, true), c.runId, ResolvedStep(c.runId, id, d, refs), now,
                   if d.Approved? then "resumable" else "denied", loads);
      }
    case ResumeRun(runId, refs) =>
      var outcome := ResumeResult(env, st, runId, loads.own);
      if outcome.Resumes? {
        var s := ResumedStep(runId, outcome.fromStep, env.secondText(now), refs);
        StepsKeepToolFiles(env, st, runId, s, now, loads.step);
        TouchKeepsTools(env, Last(st, RecordStepStates(env, st, runId, s, now, loads.step)), runId, "running", false,
                        loads.touch);
      }
  }

  // ---------- what each call records ----------

  datatype Note = Note(runId: string, step: Step)

  /** The step that a call asks `record_step` to record, and for which run. */
  function NoteOf(env: Env, st: State, call: Call): Option<Note> {
    match call.op
    case CreateRun(runId, refs) => Some(Note(runId, CreatedStep(runId, refs)))
    case RecordStep(runId, step) => Some(Note(runId, step))
    case RecordToolCall(runId, use) => Some(Note(runId, ToolStep(runId, use)))
    case CreateApproval(runId, approvalId, _, refs) => Some(Note(runId, CheckpointStep(runId, approvalId, refs)))
    case ResolveApproval(approvalId, decision, _, authority, refs) =>
      if !ResolveResult(st, approvalId, decision, authority, call.loads.own.approvals).Finalised? then None
      else
        var runId := st.approvals[approvalId].runId;
        Some(Note(runId, ResolvedStep(runId, approvalId, ParseDecision(decision).value, refs)))
    case ResumeRun(runId, refs) =>
      var outcome := ResumeResult(env, st, runId, call.loads.own);
      if !outcome.Resumes? then None
      else Some(Note(runId, ResumedStep(runId, outcome.fromStep, env.secondText(call.now), refs)))
  }

  /** The journals after the note is recorded. */
  ghost predicate Noted(env: Env, st: State, t: State, note: Option<Note>, now: int) {
    if note.None? then forall r :: Entries(env, t, r) == Entries(env, st, r)
    else Recorded(env, st, t, note.value.runId, note.value.step, now)
  }

  /** The approvals file after each operation. */
  function ApprovalsAfter(env: Env, st: State, call: Call): map<string, Checkpoint> {
    match call.op
    case CreateApproval(runId, id, authorityId, _) =>
      FileCheckpoint(env, st, id, Checkpoint(runId, Pending, authorityId), call.loads.own.approvals).approvals
    case ResolveApproval(id, decision, reviewer, authority, _) =>
      if ResolveResult(st, id, decision, authority, call.loads.own.approvals).Finalised? then
        FileCheckpoint(env, st, id, st.approvals[id].(review := Resolved(ParseDecision(decision).value, reviewer)),
                       true)
          .approvals
      else st.approvals
    case _ => st.approvals
  }

  lemma TouchKeepsApprovals(env: Env, st: State, runId: string, status: string, increment: bool, load: Load)
    ensures forall t :: t in TouchStates(env, st, runId, status, increment, load) ==> t.approvals == st.approvals
    ensures Last(st, TouchStates(env, st, runId, status, increment, load)).approvals == st.approvals
  {
  }

  lemma RecordKeepsApprovals(env: Env, st: State, runId: string, s: Step, now: int, load: Load)
    ensures forall t :: t in RecordStepStates(env, st, runId, s, now, load) ==> t.approvals == st.approvals
    ensures Last(st, RecordStepStates(env, st, runId, s, now, load)).approvals == st.approvals
  {
    hide Read, Find, StepFields, WithHash, TouchStates;
    TouchKeepsApprovals(env, AppendStep(env, st, runId, s, now), runId, s.status, true, load);
  }

  lemma FiledApprovals(env: Env, st: State, filed: State, runId: string, s: Step, now: int, status: string,
                       loads: Loads)
    ensures var recorded := [filed] + RecordStepStates(env, filed, runId, s, now, loads.step);
            var states := recorded + TouchStates(env, Last(st, recorded), runId, status, false, loads.touch);
            && (forall t :: t in states ==> t.approvals == filed.approvals)
            && Last(st, states).approvals == filed.approvals
  {
    hide RecordStepStates, TouchStates;
    var steps := RecordStepStates(env, filed, runId, s, now, loads.step);
    RecordKeepsApprovals(env, filed, runId, s, now, loads.step);
    assert Last(st, [filed] + steps) == Last(filed, steps);
    TouchKeepsApprovals(env, Last(filed, steps), runId, status, false, loads.touch);
    var states := [filed] + steps + TouchStates(env, Last(filed, steps), runId, status, false, loads.touch);
    assert Last(st, states) in states;
  }

  lemma NextApprovals(env: Env, st: State, call: Call)
    ensures Next(env, st, call).approvals == ApprovalsAfter(env, st, call)
  {
    hide RecordStepStates, TouchStates, WriteApprovals, WriteIndex, ParseDecision, Confirmed, ToolCallRecord,
         ResumeResult;
    var op, now, loads := call.op, call.now, call.loads;
    match op
    case CreateRun(runId, refs) =>
      var listed, s := ListRun(env, st, runId, loads.own.index), CreatedStep(runId, refs);
      RecordKeepsApprovals(env, listed, runId, s, now, loads.step);
      var steps := RecordStepStates(env, listed, runId, s, now, loads.step);
      assert Last(st, [listed] + steps) == Last(listed, steps);
    case RecordStep(runId, s) => RecordKeepsApprovals(env, st, runId, s, now, loads.step);
    case RecordToolCall(runId, use) => RecordKeepsApprovals(env, st, runId, ToolStep(runId, use), now, loads.step);
    case CreateApproval(runId, id, authorityId, refs) =>
      var c := Checkpoint(runId, Pending, authorityId);
      FiledApprovals(env, st, FileCheckpoint(env, st, id, c, loads.own.approvals), runId,
                     CheckpointStep(runId, id, refs),
                     now, "pending_approval", loads);
    case ResolveApproval(id, decision, reviewer, authority, refs) =>
      if ResolveResult(st, id, decision, authority, loads.own.approvals).Finalised? {
        var d := ParseDecision(decision).value;
        var c := st.approvals[id].(review := Resolved(d, reviewer));
        FiledApprovals(env, st, FileCheckpoint(env, st, id, c, true), c.runId, ResolvedStep(c.runId, id, d, refs), now,
                       if d.Approved? then "resumable" else "denied", loads);
      }
    case ResumeRun(runId, refs) =>
      var outcome := ResumeResult(env, st, runId, loads.own);
      if outcome.Resumes? {
        ResumeApprovals(env, st, runId, ResumedStep(runId, outcome.fromStep, env.secondText(now), refs), now, loads);
      }
  }

  lemma ResumeApprovals(env: Env, st: State, runId: string, s: Step, now: int, loads: Loads)
    ensures var steps := RecordStepStates(env, st, runId, s, now, loads.step);
            Last(st, steps + TouchStates(env, Last(st, steps), runId, "running", false, loads.touch)).approvals
            == st.approvals
  {
    hide RecordStepStates, TouchStates;
    var steps := RecordStepStates(env, st, runId, s, now, loads.step);
    var done := Last(st, steps);
    RecordKeepsApprovals(env, st, runId, s, now, loads.step);
    TouchKeepsApprovals(env, done, runId, "running", false, loads.touch);
    var touched := TouchStates(env, done, runId, "running", false, loads.touch);
    assert Last(st, steps + touched) == Last(done, touched);
  }

  /** The call files a checkpoint without having been able to read those on file. */
  predicate ForgetsApprovals(st: State, call: Call) {
    call.op.CreateApproval? && !call.loads.own.approvals && st.approvals != map[]
  }

  /** How far a call can have come: it has written the approvals file or has nothing to write there,
      and has recorded its step, or it has recorded nothing yet. */
  ghost predicate Midway(env: Env, st: State, t: State, call: Call) {
    && Sound(env, t)
    && ((Noted(env, st, t, None, call.now) && t.approvals in {st.approvals, ApprovalsAfter(env, st, call)})
        || Arrived(env, st, t, call))
  }

  ghost predicate Arrived(env: Env, st: State, t: State, call: Call) {
    Sound(env, t) && Noted(env, st, t, NoteOf(env, st, call), call.now) && t.approvals == ApprovalsAfter(env, st, call)
  }

  // ---------- one step ----------

  /** The step is recorded, and nothing else but the index may have changed. */
  ghost predicate StepDone(env: Env, st: State, t: State, runId: string, s: Step, now: int) {
    Sound(env, t) && Recorded(env, st, t, runId, s, now) && t.approvals == st.approvals
  }

  lemma SoundWithJournals(env: Env, st: State, t: State)
    requires Sound(env, st) && t.journals == st.journals && CrashSafe(env, t)
    ensures Sound(env, t) && forall r :: Entries(env, t, r) == Entries(env, st, r)
  {
    SameJournals(env, st, t);
    forall r ensures AllTyped(Records(env, t, r)) { assert AllTyped(Records(env, st, r)); }
  }

  lemma TouchDone(env: Env, base: State, st: State, runId: string, s: Step, now: int, run: string, status: string,
                  increment: bool, load: Load)
    requires StepDone(env, base, st, runId, s, now)
    requires AllSafe(env, TouchStates(env, st, run, status, increment, load))
    ensures forall t :: t in TouchStates(env, st, run, status, increment, load) ==>
              StepDone(env, base, t, runId, s, now)
  {
    forall t | t in TouchStates(env, st, run, status, increment, load) ensures StepDone(env, base, t, runId, s, now) {
      SoundWithJournals(env, st, t);
    }
  }

  lemma RecordStepDone(env: Env, st: State, runId: string, s: Step, now: int, load: Load)
    requires FieldsKept(env) && Sound(env, st)
    ensures var steps := RecordStepStates(env, st, runId, s, now, load);
            && (forall t :: t in steps ==> StepDone(env, st, t, runId, s, now))
            && StepDone(env, st, Last(st, steps), runId, s, now)
  {
    hide TouchStates, Read, Find, StepFields, WithHash;
    var steps := RecordStepStates(env, st, runId, s, now, load);
    RepeatsIsAlreadyRecorded(env, st, runId, s.key);
    RecordStepSafe(env, st, runId, s, now, load);
    if !AlreadyRecorded(env, st, runId, s.key) {
      var appended := AppendStep(env, st, runId, s, now);
      AppendStepEntries(env, st, runId, s, now);
      assert steps[1..] == TouchStates(env, appended, runId, s.status, true, load);
      TouchDone(env, st, appended, runId, s, now, runId, s.status, true, load);
      assert Last(st, steps) in steps;
    }
  }

  lemma FiledDone(env: Env, st: State, filed: State, runId: string, s: Step, now: int, status: string, loads: Loads)
    requires FieldsKept(env) && Sound(env, st) && filed.journals == st.journals && CrashSafe(env, filed)
    ensures var recorded := [filed] + RecordStepStates(env, filed, runId, s, now, loads.step);
            var states := recorded + TouchStates(env, Last(st, recorded), runId, status, false, loads.touch);
            && Sound(env, filed) && (forall r :: Entries(env, filed, r) == Entries(env, st, r))
            && (forall t :: t in states ==> t == filed || StepDone(env, filed, t, runId, s, now))
            && StepDone(env, filed, Last(st, states), runId, s, now)
  {
    hide RecordStepStates, TouchStates, Sound, Recorded;
    var steps := RecordStepStates(env, filed, runId, s, now, loads.step);
    var recorded := [filed] + steps;
    var done := Last(filed, steps);
    assert Last(st, recorded) == done;
    SoundWithJournals(env, st, filed);
    RecordStepDone(env, filed, runId, s, now, loads.step);
    LastTouchDone(env, filed, done, runId, s, now, runId, status, loads.touch);
    var touched := TouchStates(env, done, runId, status, false, loads.touch);
    assert Last(st, recorded + touched) == Last(done, touched);
  }

  lemma LastTouchDone(env: Env, base: State, st: State, runId: string, s: Step, now: int, run: string, status: string,
                      load: Load)
    requires StepDone(env, base, st, runId, s, now)
    ensures var states := TouchStates(env, st, run, status, false, load);
            && (forall t :: t in states ==> StepDone(env, base, t, runId, s, now))
            && StepDone(env, base, Last(st, states), runId, s, now)
  {
    hide TouchStates, Recorded;
    TouchSafe(env, st, run, status, false, load);
    TouchDone(env, base, st, runId, s, now, run, status, false, load);
    var states := TouchStates(env, st, run, status, false, load);
    assert states != [] ==> Last(st, states) in states;
  }

  lemma RecordedFromFiled(env: Env, st: State, filed: State, t: State, runId: string, s: Step, now: int)
    requires (forall r :: Entries(env, filed, r) == Entries(env, st, r)) && Recorded(env, filed, t, runId, s, now)
    ensures Recorded(env, st, t, runId, s, now)
  {
  }

  // ---------- one call ----------

  ghost predicate AllMidway(env: Env, st: State, call: Call) {
    (forall t :: t in States(env, st, call) ==> Midway(env, st, t, call)) && Arrived(env, st, Next(env, st, call), call)
  }

  /** A call that writes a dictionary, records a step and touches the run. */
  lemma FiledCallMidway(env: Env, st: State, call: Call, filed: State, runId: string, s: Step, status: string)
    requires FieldsKept(env) && Sound(env, st) && filed.journals == st.journals && CrashSafe(env, filed)
    requires NoteOf(env, st, call) == Some(Note(runId, s)) && filed.approvals == ApprovalsAfter(env, st, call)
    requires var recorded := [filed] + RecordStepStates(env, filed, runId, s, call.now, call.loads.step);
             States(env, st, call)
             == recorded + TouchStates(env, Last(st, recorded), runId, status, false, call.loads.touch)
    ensures AllMidway(env, st, call)
  {
    hide RecordStepStates, TouchStates, Sound, Recorded, NoteOf, ApprovalsAfter, States, ResumeResult;
    FiledDone(env, st, filed, runId, s, call.now, status, call.loads);
    forall t | StepDone(env, filed, t, runId, s, call.now) ensures Arrived(env, st, t, call) {
      RecordedFromFiled(env, st, filed, t, runId, s, call.now);
    }
  }

  lemma StepCallMidway(env: Env, st: State, call: Call, runId: string, s: Step)
    requires FieldsKept(env) && Sound(env, st)
    requires NoteOf(env, st, call) == Some(Note(runId, s)) && ApprovalsAfter(env, st, call) == st.approvals
    ensures var steps := RecordStepStates(env, st, runId, s, call.now, call.loads.step);
            && (forall t :: t in steps ==> Arrived(env, st, t, call)) && Arrived(env, st, Last(st, steps), call)
  {
    hide RecordStepStates, Sound, Recorded, NoteOf, ApprovalsAfter;
    RecordStepDone(env, st, runId, s, call.now, call.loads.step);
  }

  lemma CreateRunMidway(env: Env, st: State, call: Call)
    requires FieldsKept(env) && Sound(env, st) && call.op.CreateRun?
    ensures AllMidway(env, st, call)
  {
    hide RecordStepStates, Recorded, Sound, WriteIndex;
    var runId, s, loads := call.op.runId, CreatedStep(call.op.runId, call.op.refs), call.loads;
    var listed := ListRun(env, st, runId, loads.own.index);
    SoundIsSafe(env, st);
    ListedSafe(env, st, runId, loads.own.index);
    SoundWithJournals(env, st, listed);
    RecordStepDone(env, listed, runId, s, call.now, loads.step);
    forall t | StepDone(env, listed, t, runId, s, call.now) ensures Arrived(env, st, t, call) {
      RecordedFromFiled(env, st, listed, t, runId, s, call.now);
    }
    var steps := RecordStepStates(env, listed, runId, s, call.now, loads.step);
    assert Last(st, [listed] + steps) == Last(listed, steps);
  }

  lemma SoundIsSafe(env: Env, st: State)
    requires Sound(env, st)
    ensures CrashSafe(env, st)
  {
  }

  lemma ToolCallMidway(env: Env, st: State, call: Call)
    requires FieldsKept(env) && Sound(env, st) && call.op.RecordToolCall?
    ensures AllMidway(env, st, call)
  {
    hide RecordStepStates, Recorded, Sound, ToolCallRecord;
    var runId, s := call.op.runId, ToolStep(call.op.runId, call.op.use);
    StepCallMidway(env, st, call, runId, s);
    var done := Last(st, RecordStepStates(env, st, runId, s, call.now, call.loads.step));
    var t := AppendCall(env, done, runId, ToolCallRecord(env, st, runId, call.op.use, call.now));
    SoundIsSafe(env, done);
    SameJournalsSafe(env, done, t);
    SoundWithJournals(env, done, t);
    RecordedLater(env, st, done, t, runId, s, call.now);
  }

  lemma RecordedLater(env: Env, st: State, t: State, u: State, runId: string, s: Step, now: int)
    requires (forall r :: Entries(env, u, r) == Entries(env, t, r)) && Recorded(env, st, t, runId, s, now)
    ensures Recorded(env, st, u, runId, s, now)
  {
  }

  lemma ApprovalCallMidway(env: Env, st: State, call: Call)
    requires FieldsKept(env) && Sound(env, st) && (call.op.CreateApproval? || call.op.ResolveApproval?)
    ensures AllMidway(env, st, call)
  {
    hide RecordStepStates, TouchStates, Recorded, Sound, WriteApprovals, ParseDecision, Confirmed, CrashSafe;
    var op, own := call.op, call.loads.own.approvals;
    SoundIsSafe(env, st);
    if op.CreateApproval? {
      var c := Checkpoint(op.runId, Pending, op.authorityId);
      FiledSafe(env, st, op.approvalId, c, own);
      FiledCallMidway(env, st, call, FileCheckpoint(env, st, op.approvalId, c, own), op.runId,
                      CheckpointStep(op.runId, op.approvalId, op.refs), "pending_approval");
    } else if ResolveResult(st, op.approvalId, op.decision, op.authority, own).Finalised? {
      var d := ParseDecision(op.decision).value;
      var c := st.approvals[op.approvalId].(review := Resolved(d, op.reviewer));
      FiledSafe(env, st, op.approvalId, c, true);
      FiledCallMidway(env, st, call, FileCheckpoint(env, st, op.approvalId, c, true), c.runId,
                      ResolvedStep(c.runId, op.approvalId, d, op.refs), if d.Approved? then "resumable" else "denied");
    }
  }

  lemma ResumeMidway(env: Env, st: State, call: Call)
    requires FieldsKept(env) && Sound(env, st) && call.op.ResumeRun?
    ensures AllMidway(env, st, call)
  {
    hide RecordStepStates, TouchStates, Recorded, Sound, ResumeResult;
    var runId, outcome := call.op.runId, ResumeResult(env, st, call.op.runId, call.loads.own);
    if outcome.Resumes? {
      var s := ResumedStep(runId, outcome.fromStep, env.secondText(call.now), call.op.refs);
      var steps := RecordStepStates(env, st, runId, s, call.now, call.loads.step);
      var done := Last(st, steps);
      RecordStepDone(env, st, runId, s, call.now, call.loads.step);
      LastTouchDone(env, st, done, runId, s, call.now, runId, "running", call.loads.touch);
      var touched := TouchStates(env, done, runId, "running", false, call.loads.touch);
      assert Last(st, steps + touched) == Last(done, touched);
    }
  }

  /** Every state a call leaves behind, whichever loads fail: at most the one step it asks for has
      been recorded, and only after the approvals file was written. */
  lemma StatesMidway(env: Env, st: State, call: Call)
    requires FieldsKept(env) && Sound(env, st)
    ensures AllMidway(env, st, call)
  {
    hide RecordStepStates, Recorded, Sound;
    match call.op
    case CreateRun(_, _) => CreateRunMidway(env, st, call);
    case RecordStep(runId, s) => StepCallMidway(env, st, call, runId, s);
    case RecordToolCall(_, _) => ToolCallMidway(env, st, call);
    case ResumeRun(_, _) => ResumeMidway(env, st, call);
    case _ => ApprovalCallMidway(env, st, call);
  }
}
