/** Tool-call files: one line for each reported use, which names a step of the run's journal, in
    every history with crashes. */
module TrustTools {
  import opened Wrappers
  import opened Redaction
  import opened HashChain
  import opened TrustStore
  import opened TrustCrash
  import opened TrustViews
  import opened TrustRuns
  import opened TrustOnce
  import opened TrustSteps
  import opened Text

  function ToolRecords(env: Env, st: State, runId: string): seq<Record> { Read(st.ToolLines(runId), env.codec) }

  // ---------- one call ----------

  lemma RedactedIsSettled(raw: Record, c: Codec)
    requires c.KeepsDigests()
    ensures Redact(Obj(raw), c.redactor).Obj? && Settled(Redact(Obj(raw), c.redactor).fields, c)
  {
    RedactIdempotent(Obj(raw), c.redactor, 0);
  }

  lemma CallFieldsSettled(env: Env, runId: string, use: ToolUse, recorded: Record, now: int)
    requires env.codec.KeepsDigests()
    ensures Settled(CallFields(env, runId, use, recorded, now), env.codec)
  {
    hide Redact;
    RedactedIsSettled(RawCall(runId, use, recorded, now), env.codec);
  }

  /** Every use adds exactly one line to its run's tool file, and reads back as the reply; a journal
      record is added only when the key of the use is new. */
  lemma ToolCallEffect(env: Env, st: State, call: Call)
    requires env.codec.KeepsDigests() && call.op.RecordToolCall?
    ensures var runId, use, t := call.op.runId, call.op.use, Next(env, st, call);
            && ToolRecords(env, t, runId)
               == ToolRecords(env, st, runId) + [ToolCallRecord(env, st, runId, use, call.now)]
            && (forall r :: r != runId ==> ToolRecords(env, t, r) == ToolRecords(env, st, r))
            && (AlreadyRecorded(env, st, runId, ToolStep(runId, use).key) ==>
                  t.journals == st.journals && t.index == st.index)
  {
    hide Redact, Read, CallFields, Find, StepFields;
    var runId, use := call.op.runId, call.op.use;
    var s := ToolStep(runId, use);
    NextOfToolCall(env, st, call);
    StepsKeepToolFiles(env, st, runId, s, call.now, call.loads.step);
    CallFieldsSettled(env, runId, use, RecordStepResult(env, st, runId, s, call.now), call.now);
    ReadAppend(st.ToolLines(runId), ToolCallRecord(env, st, runId, use, call.now), env.codec);
  }

  // ---------- every history ----------

  predicate NamesAStep(rs: seq<Record>, call: Record) {
    exists j :: 0 <= j < |rs| && Field(rs[j], STEP_ID) == Field(call, STEP_ID)
  }

  ghost predicate CallsNameSteps(env: Env, st: State) {
    forall r, i :: 0 <= i < |ToolRecords(env, st, r)| ==> NamesAStep(Records(env, st, r), ToolRecords(env, st, r)[i])
  }

  lemma GrowingKeepsNames(env: Env, st: State, t: State)
    requires CallsNameSteps(env, st) && Grows(env, st, t) && t.tools == st.tools
    ensures CallsNameSteps(env, t)
  {
    forall r, i | 0 <= i < |ToolRecords(env, t, r)|
      ensures NamesAStep(Records(env, t, r), ToolRecords(env, t, r)[i])
    {
      assert t.ToolLines(r) == st.ToolLines(r);
      assert NamesAStep(Records(env, st, r), ToolRecords(env, st, r)[i]);
      var j :| 0 <= j < |Records(env, st, r)|
               && Field(Records(env, st, r)[j], STEP_ID) == Field(ToolRecords(env, st, r)[i], STEP_ID);
      assert Records(env, t, r)[j] == Records(env, st, r)[j];
    }
  }

  lemma {:induction false} ReadIsSettled(lines: seq<Line>, c: Codec)
    requires c.KeepsDigests()
    ensures forall i :: 0 <= i < |Read(lines, c)| ==> Settled(Read(lines, c)[i], c)
  {
    hide Redact;
    if lines != [] {
      ReadIsSettled(lines[..|lines| - 1], c);
      var last := lines[|lines| - 1];
      if last.Parsed? && last.v.Obj? { RedactedIsSettled(last.v.fields, c); }
    }
  }

  /** The step that a use without a step id names is the recorded one, redaction and all. */
  lemma CallNamesRecorded(env: Env, runId: string, use: ToolUse, recorded: Record, now: int)
    requires env.codec.KeepsDigests() && !env.codec.redactor.marked(STEP_ID)
    requires use.stepId == "" && Settled(recorded, env.codec)
    ensures Field(CallFields(env, runId, use, recorded, now), STEP_ID) == Field(recorded, STEP_ID)
  {
    var raw, r := RawCall(runId, use, recorded, now), env.codec.redactor;
    assert raw[STEP_ID] == Field(recorded, STEP_ID);
    assert Redact(Obj(raw), r).fields[STEP_ID] == Redact(raw[STEP_ID], r, 1);
    if STEP_ID in recorded { assert Redact(Obj(recorded), r).fields[STEP_ID] == Redact(recorded[STEP_ID], r, 1); }
  }

  /** What `record_step` returns is in the journal afterwards, and settled. */
  lemma ResultIsInJournal(env: Env, st: State, runId: string, s: Step, now: int, load: Load)
    requires env.codec.KeepsDigests() && CrashSafe(env, st)
    ensures var t := Last(st, RecordStepStates(env, st, runId, s, now, load));
            && RecordStepResult(env, st, runId, s, now) in Records(env, t, runId)
            && Settled(RecordStepResult(env, st, runId, s, now), env.codec)
  {
    hide Read, StepFields, WithHash, Redact;
    var t := Last(st, RecordStepStates(env, st, runId, s, now, load));
    if !AlreadyRecorded(env, st, runId, s.key) {
      AppendStepRecords(env, st, runId, s, now);
      RecordStepDisk(env, st, runId, s, now, load);
      SameJournals(env, AppendStep(env, st, runId, s, now), t);
    }
    ReadIsSettled(t.Lines(runId), env.codec);
  }

  ghost predicate AllNamed(env: Env, states: seq<State>) {
    forall t :: t in states ==> CallsNameSteps(env, t)
  }

  lemma ToolCallKeepsNames(env: Env, st: State, call: Call)
    requires FieldsKept(env) && CrashSafe(env, st) && CallsNameSteps(env, st)
    requires call.op.RecordToolCall? && call.op.use.stepId == ""
    ensures AllNamed(env, States(env, st, call))
  {
    hide Read, StepFields, WithHash, Redact, RecordStepStates, RecordStepResult, CallFields;
    var runId, use, now := call.op.runId, call.op.use, call.now;
    var s := ToolStep(runId, use);
    var steps := RecordStepStates(env, st, runId, s, now, call.loads.step);
    hide CallsNameSteps, Grows;
    GrowsIsReflexive(env, st);
    RecordStepGrows(env, st, st, runId, s, now, call.loads.step);
    StepsKeepToolFiles(env, st, runId, s, now, call.loads.step);
    forall u | u in steps ensures CallsNameSteps(env, u) { GrowingKeepsNames(env, st, u); }
    assert Last(st, steps) == st || Last(st, steps) in steps;
    NewLineNamesStep(env, st, call);
  }

  /** The last write of a use: the old lines still name steps, and the new one names the recorded. */
  lemma NewLineNamesStep(env: Env, st: State, call: Call)
    requires FieldsKept(env) && CrashSafe(env, st) && call.op.RecordToolCall? && call.op.use.stepId == ""
    requires var runId, s := call.op.runId, ToolStep(call.op.runId, call.op.use);
             CallsNameSteps(env, Last(st, RecordStepStates(env, st, runId, s, call.now, call.loads.step)))
    ensures CallsNameSteps(env, Next(env, st, call))
  {
    hide Read, StepFields, WithHash, Redact, RecordStepStates, RecordStepResult, CallFields;
    var runId, use, now, load := call.op.runId, call.op.use, call.now, call.loads.step;
    var s := ToolStep(runId, use);
    var done, t := Last(st, RecordStepStates(env, st, runId, s, now, load)), Next(env, st, call);
    NextOfToolCall(env, st, call);
    ToolCallEffect(env, st, call);
    StepsKeepToolFiles(env, st, runId, s, now, load);
    ResultIsInJournal(env, st, runId, s, now, load);
    CallNamesRecorded(env, runId, use, RecordStepResult(env, st, runId, s, now), now);
    SameJournals(env, done, t);
    forall r, i | 0 <= i < |ToolRecords(env, t, r)|
      ensures NamesAStep(Records(env, t, r), ToolRecords(env, t, r)[i])
    {
      assert done.ToolLines(r) == st.ToolLines(r);
      if r != runId || i < |ToolRecords(env, st, r)| {
        assert NamesAStep(Records(env, done, r), ToolRecords(env, done, r)[i]);
      }
    }
  }

  lemma CallKeepsNames(env: Env, st: State, call: Call)
    requires FieldsKept(env) && CrashSafe(env, st) && CallsNameSteps(env, st)
    requires call.op.RecordToolCall? ==> call.op.use.stepId == ""
    ensures AllNamed(env, States(env, st, call))
  {
    hide States, CallsNameSteps, Grows;
    if call.op.RecordToolCall? {
      ToolCallKeepsNames(env, st, call);
    } else {
      StatesGrow(env, st, call);
      StatesKeepToolFiles(env, st, call);
      forall t | t in States(env, st, call) ensures CallsNameSteps(env, t) { GrowingKeepsNames(env, st, t); }
    }
  }

  predicate NamesNoSteps(events: seq<Event>) {
    forall i :: 0 <= i < |events| && events[i].call.op.RecordToolCall? ==> events[i].call.op.use.stepId == ""
  }

  lemma {:induction false} HistoryKeepsNames(env: Env, st: State, events: seq<Event>)
    requires FieldsKept(env) && CrashSafe(env, st) && CallsNameSteps(env, st) && NamesNoSteps(events)
    ensures CallsNameSteps(env, AfterCrashes(env, st, events))
    decreases |events|
  {
    hide States, CallsNameSteps, CrashSafe;
    if events != [] {
      var states := States(env, st, events[0].call);
      CallSafe(env, st, events[0].call);
      CallKeepsNames(env, st, events[0].call);
      var next := Survives(env, st, events[0]);
      assert next == st || next in states;
      HistoryKeepsNames(env, next, events[1..]);
    }
  }

  /** After any sequence of operations, with loads that fail and each cut short after any number of
      its writes: every line of a tool file, unless its caller named a step, names one that is in
      the journal of the same run. */
  lemma ToolLinesNameSteps(env: Env, events: seq<Event>)
    requires FieldsKept(env) && NamesNoSteps(events)
    ensures CallsNameSteps(env, AfterCrashes(env, EMPTY, events))
  {
    assert forall r :: ToolRecords(env, EMPTY, r) == [];
    HistoryKeepsNames(env, EMPTY, events);
  }
}
