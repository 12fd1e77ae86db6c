/** What the trust store keeps through every operation, every failed load and every crash between
    two file writes, whatever the arguments: no assumption on keys, ids or clocks is needed here. */
module TrustCrash {
  import opened Wrappers
  import opened Redaction
  import opened HashChain
  import opened TrustStore

  /** Every journal verifies, and no run counts more steps than its journal holds. */
  ghost predicate CrashSafe(env: Env, st: State) {
    && (forall runId :: runId in st.journals ==> ChainOk(Records(env, st, runId), env.codec))
    && (forall runId :: runId in st.index ==> st.index[runId].stepCount <= |Records(env, st, runId)|)
  }

  lemma StepFieldsSettled(env: Env, runId: string, s: Step, now: int)
    requires env.codec.KeepsDigests()
    ensures Settled(StepFields(env, runId, s, now), env.codec)
    ensures OWN !in StepFields(env, runId, s, now)
  {
    var raw := RawFields(env, runId, s, now);
    RedactIdempotent(Obj(raw), env.codec.redactor, 0);
    assert OWN !in raw;
  }

  /** Appending a step adds exactly the hashed record to its own journal and nothing elsewhere. */
  lemma AppendStepRecords(env: Env, st: State, runId: string, s: Step, now: int)
    requires env.codec.KeepsDigests() && CrashSafe(env, st)
    ensures var appended := AppendStep(env, st, runId, s, now);
            var r := WithHash(Records(env, st, runId), StepFields(env, runId, s, now), env.codec);
            && Records(env, appended, runId) == Records(env, st, runId) + [r]
            && (forall other :: other != runId ==> Records(env, appended, other) == Records(env, st, other))
            && CrashSafe(env, appended)
  {
    StepFieldsSettled(env, runId, s, now);
    assert ChainOk(Records(env, st, runId), env.codec);
    AppendKeepsChain(st.Lines(runId), StepFields(env, runId, s, now), env.codec);
    var appended := AppendStep(env, st, runId, s, now);
    forall other | other in appended.journals
      ensures ChainOk(Records(env, appended, other), env.codec)
    {
      if other != runId { assert Records(env, appended, other) == Records(env, st, other); }
    }
  }

  lemma TouchSafe(env: Env, st: State, runId: string, status: string, increment: bool, load: Load := READ)
    requires CrashSafe(env, st)
    requires increment && runId in st.index ==> st.index[runId].stepCount < |Records(env, st, runId)|
    ensures AllSafe(env, TouchStates(env, st, runId, status, increment, load))
  {
    forall t | t in TouchStates(env, st, runId, status, increment, load)
      ensures CrashSafe(env, t)
    {
      assert forall r :: Records(env, t, r) == Records(env, st, r);
    }
  }

  ghost predicate AllSafe(env: Env, states: seq<State>) {
    forall i :: 0 <= i < |states| ==> CrashSafe(env, states[i])
  }

  lemma RecordStepSafe(env: Env, st: State, runId: string, s: Step, now: int, load: Load := READ)
    requires env.codec.KeepsDigests() && CrashSafe(env, st)
    ensures AllSafe(env, RecordStepStates(env, st, runId, s, now, load))
  {
    hide WithHash, StepFields, Read, Find;
    if !AlreadyRecorded(env, st, runId, s.key) {
      AppendStepRecords(env, st, runId, s, now);
      TouchSafe(env, AppendStep(env, st, runId, s, now), runId, s.status, true, load);
    }
  }

  /** Writing a dictionary leaves the journals as they are. */
  lemma SameJournalsSafe(env: Env, st: State, t: State)
    requires CrashSafe(env, st) && t.journals == st.journals
    requires t.index == st.index || forall r :: r in t.index ==>
               t.index[r].stepCount == 0 || (r in st.index && t.index[r].stepCount == st.index[r].stepCount)
    ensures CrashSafe(env, t)
  {
    assert forall r :: Records(env, t, r) == Records(env, st, r);
  }

  lemma ApprovalCallSafe(env: Env, st: State, call: Call)
    requires env.codec.KeepsDigests() && CrashSafe(env, st)
    requires call.op.CreateApproval? || call.op.ResolveApproval?
    ensures AllSafe(env, States(env, st, call))
  {
    hide RecordStepStates, TouchStates, WriteApprovals, Read, ParseDecision, Confirmed;
    var op, now, loads := call.op, call.now, call.loads;
    if op.CreateApproval? {
      var c := Checkpoint(op.runId, Pending, op.authorityId);
      var approvals := Loaded(st.approvals, loads.own.approvals);
      var filed := st.(approvals := WriteApprovals(env, approvals[op.approvalId := c]));
      SameJournalsSafe(env, st, filed);
      RecordThenTouchSafe(env, st, filed, op.runId, CheckpointStep(op.runId, op.approvalId, op.refs), now,
                          "pending_approval", loads);
    } else if ResolveResult(st, op.approvalId, op.decision, op.authority, loads.own.approvals).Finalised? {
      var d := ParseDecision(op.decision).value;
      var c := st.approvals[op.approvalId].(review := Resolved(d, op.reviewer));
      var filed := st.(approvals := WriteApprovals(env, st.approvals[op.approvalId := c]));
      SameJournalsSafe(env, st, filed);
      RecordThenTouchSafe(env, st, filed, c.runId, ResolvedStep(c.runId, op.approvalId, d, op.refs), now,
                          if d.Approved? then "resumable" else "denied", loads);
    }
  }

  lemma ResumeCallSafe(env: Env, st: State, runId: string, refs: Refs, now: int, loads: Loads)
    requires env.codec.KeepsDigests() && CrashSafe(env, st)
    ensures AllSafe(env, ResumeRunStates(env, st, runId, refs, now, loads))
  {
    hide ResumeResult, RecordStepStates, TouchStates;
    var outcome := ResumeResult(env, st, runId, loads.own);
    if outcome.Resumes? {
      var s := ResumedStep(runId, outcome.fromStep, env.secondText(now), refs);
      RecordStepSafe(env, st, runId, s, now, loads.step);
      TouchSafe(env, Last(st, RecordStepStates(env, st, runId, s, now, loads.step)), runId, "running", false,
                loads.touch);
    }
  }

  lemma ToolCallSafe(env: Env, st: State, call: Call)
    requires env.codec.KeepsDigests() && CrashSafe(env, st) && call.op.RecordToolCall?
    ensures AllSafe(env, States(env, st, call))
  {
    hide RecordStepStates, CrashSafe, ToolCallRecord;
    var runId, use := call.op.runId, call.op.use;
    var steps := RecordStepStates(env, st, runId, ToolStep(runId, use), call.now, call.loads.step);
    RecordStepSafe(env, st, runId, ToolStep(runId, use), call.now, call.loads.step);
    var done := Last(st, steps);
    SameJournalsSafe(env, done, AppendCall(env, done, runId, ToolCallRecord(env, st, runId, use, call.now)));
  }

  lemma CallSafe(env: Env, st: State, call: Call)
    requires env.codec.KeepsDigests() && CrashSafe(env, st)
    ensures AllSafe(env, States(env, st, call))
  {
    hide Read, StepFields, TouchStates, RecordStepStates;
    var now, loads := call.now, call.loads;
    match call.op
    case CreateRun(runId, refs) =>
      var index := Loaded(st.index, loads.own.index);
      var listed := st.(index := WriteIndex(env, index[runId := Run("running", 0, 0)]));
      SameJournalsSafe(env, st, listed);
      RecordStepSafe(env, listed, runId, CreatedStep(runId, refs), now, loads.step);
    case RecordStep(runId, step) => RecordStepSafe(env, st, runId, step, now, loads.step);
    case RecordToolCall(_, _) => ToolCallSafe(env, st, call);
    case ResumeRun(runId, refs) => ResumeCallSafe(env, st, runId, refs, now, loads);
    case _ => ApprovalCallSafe(env, st, call);
  }

  lemma RecordThenTouchSafe(env: Env, st: State, filed: State, runId: string, s: Step, now: int, status: string,
                            loads: Loads)
    requires env.codec.KeepsDigests() && CrashSafe(env, filed)
    ensures var recorded := [filed] + RecordStepStates(env, filed, runId, s, now, loads.step);
            AllSafe(env, recorded + TouchStates(env, Last(st, recorded), runId, status, false, loads.touch))
  {
    hide RecordStepStates, TouchStates, Read;
    RecordStepSafe(env, filed, runId, s, now, loads.step);
    var recorded := [filed] + RecordStepStates(env, filed, runId, s, now, loads.step);
    assert CrashSafe(env, recorded[|recorded| - 1]);
    TouchSafe(env, Last(st, recorded), runId, status, false, loads.touch);
  }

  // ---------- every history, with crashes anywhere ----------

  /** A call that gets as far as `writes` file writes before the process dies or the next write, or
      the reading of a journal, raises. */
  datatype Event = Event(call: Call, writes: nat)

  function Survives(env: Env, st: State, e: Event): State {
    var states := States(env, st, e.call);
    Last(st, if e.writes < |states| then states[..e.writes] else states)
  }

  function AfterCrashes(env: Env, st: State, events: seq<Event>): State
    decreases |events|
  {
    if events == [] then st else AfterCrashes(env, Survives(env, st, events[0]), events[1..])
  }

  lemma {:induction false} EveryHistoryIsSafe(env: Env, st: State, events: seq<Event>)
    requires env.codec.KeepsDigests() && CrashSafe(env, st)
    ensures CrashSafe(env, AfterCrashes(env, st, events))
    decreases |events|
  {
    if events != [] {
      CallSafe(env, st, events[0].call);
      EveryHistoryIsSafe(env, Survives(env, st, events[0]), events[1..]);
    }
  }

  /** After any sequence of store operations, with loads that fail anywhere and each cut short after
      any number of its writes, `verify_run_integrity` accepts every journal, although records are redacted when
      built, on append and on read, and no step count exceeds its journal. */
  lemma JournalsAlwaysVerify(env: Env, events: seq<Event>, runId: string)
    requires env.codec.KeepsDigests()
    ensures var st := AfterCrashes(env, EMPTY, events);
            && ChainOk(Records(env, st, runId), env.codec)
            && (runId in st.index ==> st.index[runId].stepCount <= |Records(env, st, runId)|)
  {
    EveryHistoryIsSafe(env, EMPTY, events);
  }

  /** A history in which every call completes is one of these histories. */
  lemma {:induction false} NoCrashIsAHistory(env: Env, st: State, calls: seq<Call>) returns (events: seq<Event>)
    ensures AfterCrashes(env, st, events) == After(env, st, calls)
    decreases |calls|
  {
    events := [];
    if calls != [] {
      var rest := NoCrashIsAHistory(env, Next(env, st, calls[0]), calls[1..]);
      events := [Event(calls[0], |States(env, st, calls[0])|)] + rest;
    }
  }
}
