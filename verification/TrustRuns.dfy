/** Every run of completed store operations: agreement of the views, approvals that never change
    once resolved, resume boundaries that are never used twice, idempotent recording. */
module TrustRuns {
  import opened Wrappers
  import opened Redaction
  import opened HashChain
  import opened TrustStore
  import opened Text
  import opened TrustCrash
  import opened TrustViews
  import opened TrustInvariant

  // ---------- one call ----------

  lemma CreateRunKeepsInv(env: Env, st: State, call: Call)
    requires EnvOk(env) && Inv(env, st) && CallOk(env, st, call) && call.op.CreateRun? && call.loads == ALL_READ
    ensures Inv(env, Next(env, st, call))
  {
    hide Read, Redact, StepFields, WithHash;
    var runId, refs, now := call.op.runId, call.op.refs, call.now;
    var listed := st.(index := WriteIndex(env, st.index[runId := Run("running", 0, 0)]));
    var s := CreatedStep(runId, refs);
    WriteScrubbedIndex(env, st, runId, Run("running", 0, 0));
    SameJournals(env, st, listed);
    SameJournalsSafe(env, st, listed);
    SameViews(env, st, listed);
    CreatedKeyNotReserved(runId);
    RecordCompletes(env, listed, runId, s, now, None);
    LastOfBoth(st, [listed], RecordStepStates(env, listed, runId, s, now));
  }

  /** Same journals and approvals: the views other than the index are the same. */
  lemma SameViews(env: Env, st: State, t: State)
    requires Inv(env, st) && t.journals == st.journals && t.approvals == st.approvals
    ensures Typed(env, t) && Journals(env, t) && Agreed(env, t) && Known(env, t)
  {
    SameJournals(env, st, t);
    forall r ensures AllTyped(Records(env, t, r)) && KeysOnce(Entries(env, t, r)) {
      assert AllTyped(Records(env, st, r)) && KeysOnce(Entries(env, st, r));
    }
    forall id | id in t.approvals ensures AgreesOn(env, t, id) { assert AgreesOn(env, st, id); }
    assert Known(env, t);
  }

  /** A step whose key is in none of the store's approval namespaces. */
  lemma PlainStepKeepsInv(env: Env, st: State, runId: string, s: Step, now: int)
    requires EnvOk(env) && Inv(env, st) && KeyKept(env, s.key)
    requires !Under(runId, APPROVAL_TAG, s.key) && !Under(runId, RESOLVED_TAG, s.key)
    ensures Inv(env, Last(st, RecordStepStates(env, st, runId, s, now)))
  {
    RepeatsIsAlreadyRecorded(env, st, runId, s.key);
    if !Repeats(env, st, runId, s.key) {
      RecordCompletes(env, st, runId, s, now, None);
    }
  }

  /** After the step only the tool file is written. */
  lemma NextOfToolCall(env: Env, st: State, call: Call)
    requires call.op.RecordToolCall?
    ensures var runId, use := call.op.runId, call.op.use;
            var done := Last(st, RecordStepStates(env, st, runId, ToolStep(runId, use), call.now, call.loads.step));
            Next(env, st, call) == AppendCall(env, done, runId, ToolCallRecord(env, st, runId, use, call.now))
  {
    hide RecordStepStates, ToolCallRecord;
  }

  lemma ToolFilesKeepInv(env: Env, st: State, t: State)
    requires Inv(env, st) && t.journals == st.journals && t.index == st.index && t.approvals == st.approvals
    ensures Inv(env, t)
  {
    SameJournals(env, st, t);
    SameJournalsSafe(env, st, t);
    SameViews(env, st, t);
  }

  lemma ToolCallKeepsInv(env: Env, st: State, call: Call)
    requires EnvOk(env) && Inv(env, st) && CallOk(env, st, call) && call.op.RecordToolCall? && call.loads == ALL_READ
    ensures Inv(env, Next(env, st, call))
  {
    hide Inv, RecordStepStates, ToolCallRecord;
    var runId, use := call.op.runId, call.op.use;
    var s := ToolStep(runId, use);
    ToolKeyNotReserved(runId, use.tool, use.argsId);
    PlainStepKeepsInv(env, st, runId, s, call.now);
    NextOfToolCall(env, st, call);
    ToolFilesKeepInv(env, Last(st, RecordStepStates(env, st, runId, s, call.now)), Next(env, st, call));
  }

  /** Filing a checkpoint leaves the journals and the index alone. */
  lemma FiledKeepsJournals(env: Env, st: State, filed: State)
    requires Inv(env, st) && filed.journals == st.journals && filed.index == st.index
    ensures Sound(env, filed) && Journals(env, filed)
  {
    SameJournals(env, st, filed);
    SameJournalsSafe(env, st, filed);
    forall r ensures AllTyped(Records(env, filed, r)) && KeysOnce(Entries(env, filed, r)) {
      assert AllTyped(Records(env, st, r)) && KeysOnce(Entries(env, st, r));
    }
  }

  /** Filing a checkpoint of one run changes the pending set of no other. */
  lemma FiledKeepsCounts(env: Env, st: State, filed: State, id: string, c: Checkpoint)
    requires Counted(env, st) && filed == st.(approvals := st.approvals[id := c])
    requires env.Scrub(c.runId) == c.runId
    requires id in st.approvals ==> st.approvals[id].runId == c.runId
    ensures CountedBut(env, filed, Some(c.runId))
  {
    SameJournals(env, st, filed);
    forall r | r in filed.index && r != c.runId
      ensures PendingOf(env, filed.approvals, r) == PendingOf(env, st.approvals, r)
    {
    }
  }

  lemma FiledKeepsAgreement(env: Env, st: State, filed: State, id: string, c: Checkpoint)
    requires Agreed(env, st) && Known(env, st) && filed == st.(approvals := st.approvals[id := c])
    requires id in st.approvals ==> st.approvals[id].runId == c.runId
    ensures AgreedBut(env, filed, Some(id)) && Known(env, filed)
  {
    SameJournals(env, st, filed);
    forall x | x in filed.approvals && x != id
      ensures AgreesOn(env, filed, x)
    {
      assert AgreesOn(env, st, x);
    }
  }

  /** Writing one checkpoint leaves everything but the pending count of its run and its own
      agreement. */
  lemma FiledIsAhead(env: Env, st: State, id: string, c: Checkpoint)
    requires Inv(env, st)
    requires RedactCheckpoint(env, c) == c && KeyKept(env, ResolvedKey(c.runId, id))
    requires id in st.approvals ==> st.approvals[id].runId == c.runId
    ensures Ahead(env, st.(approvals := st.approvals[id := c]), c.runId, Some(id))
  {
    hide Sound, Journals, CountedBut, AgreedBut, Known, Records;
    var filed := st.(approvals := st.approvals[id := c]);
    FiledKeepsJournals(env, st, filed);
    FiledKeepsCounts(env, st, filed, id, c);
    FiledKeepsAgreement(env, st, filed, id, c);
  }

  lemma LastOfBoth(st: State, a: seq<State>, b: seq<State>)
    ensures Last(st, a + b) == Last(Last(st, a), b)
  {
  }

  /** File a checkpoint, record a step about it, touch the run. */
  lemma FileRecordTouch(env: Env, st: State, filed: State, runId: string, s: Step, now: int, status: string)
    requires FieldsKept(env)
    requires Inv(env, Last(filed, RecordStepStates(env, filed, runId, s, now)))
    ensures var recorded := [filed] + RecordStepStates(env, filed, runId, s, now);
            Inv(env, Last(st, recorded + TouchStates(env, Last(st, recorded), runId, status, false)))
  {
    var steps := RecordStepStates(env, filed, runId, s, now);
    LastOfBoth(st, [filed], steps);
    var done := Last(filed, steps);
    LastOfBoth(st, [filed] + steps, TouchStates(env, done, runId, status, false));
    TouchKeepsInv(env, done, runId, status);
  }

  lemma NewCheckpointFiled(env: Env, st: State, runId: string, id: string, c: Checkpoint)
    requires EnvOk(env) && Inv(env, st) && id !in st.approvals
    requires c.runId == runId && c.review.Pending? && RedactCheckpoint(env, c) == c
    requires KeyKept(env, ResolvedKey(runId, id))
    ensures var filed := st.(approvals := st.approvals[id := c]);
            && Ahead(env, filed, runId, None)
            && Entries(env, filed, runId) == Entries(env, st, runId)
            && !HasKey(Entries(env, filed, runId), ApprovalKey(runId, id))
  {
    var filed := st.(approvals := st.approvals[id := c]);
    FiledIsAhead(env, st, id, c);
    SameJournals(env, st, filed);
    assert AgreesOn(env, filed, id);
  }

  lemma CreateApprovalKeepsInv(env: Env, st: State, call: Call)
    requires EnvOk(env) && Inv(env, st) && CallOk(env, st, call) && call.op.CreateApproval? && call.loads == ALL_READ
    ensures Inv(env, Next(env, st, call))
  {
    hide Read, Redact, StepFields, WithHash;
    var runId, id, refs, now := call.op.runId, call.op.approvalId, call.op.refs, call.now;
    var c := Checkpoint(runId, Pending, call.op.authorityId);
    var filed := st.(approvals := WriteApprovals(env, st.approvals[id := c]));
    var s := CheckpointStep(runId, id, refs);
    WriteScrubbedApprovals(env, st, id, c);
    var written := RedactCheckpoint(env, c);
    RedactCheckpointTwice(env, c);
    NewCheckpointFiled(env, st, runId, id, written);
    ApprovalKeyTag(runId, id);
    assert filed.approvals[id].runId == runId && s.key == ApprovalKey(runId, id);
    RecordCompletes(env, filed, runId, s, now, None);
    FileRecordTouch(env, st, filed, runId, s, now, "pending_approval");
  }

  lemma RedactCheckpointTwice(env: Env, c: Checkpoint)
    requires env.codec.KeepsDigests()
    ensures RedactCheckpoint(env, RedactCheckpoint(env, c)) == RedactCheckpoint(env, c)
  {
    assert forall x :: env.Scrub(env.Scrub(x)) == env.Scrub(x);
  }

  lemma ResolutionFiled(env: Env, st: State, id: string, c: Checkpoint)
    requires EnvOk(env) && Inv(env, st) && id in st.approvals && st.approvals[id].review.Pending?
    requires c.runId == st.approvals[id].runId && RedactCheckpoint(env, c) == c
    ensures var filed := st.(approvals := st.approvals[id := c]);
            && Ahead(env, filed, c.runId, Some(id))
            && Entries(env, filed, c.runId) == Entries(env, st, c.runId)
            && !HasKey(Entries(env, filed, c.runId), ResolvedKey(c.runId, id))
  {
    FiledIsAhead(env, st, id, c);
    SameJournals(env, st, st.(approvals := st.approvals[id := c]));
    assert AgreesOn(env, st, id);
  }

  /** What a call that finalises a checkpoint writes: the checkpoint, the step, the run. */
  lemma NextOfResolve(env: Env, st: State, call: Call)
    requires call.op.ResolveApproval? && call.loads == ALL_READ
    requires ResolveResult(st, call.op.approvalId, call.op.decision, call.op.authority).Finalised?
    ensures var id, d := call.op.approvalId, ParseDecision(call.op.decision).value;
            var c := st.approvals[id].(review := Resolved(d, call.op.reviewer));
            var filed := st.(approvals := WriteApprovals(env, st.approvals[id := c]));
            var s := ResolvedStep(c.runId, id, d, call.op.refs);
            var recorded := [filed] + RecordStepStates(env, filed, c.runId, s, call.now);
            var status := if d.Approved? then "resumable" else "denied";
            Next(env, st, call) == Last(st, recorded + TouchStates(env, Last(st, recorded), c.runId, status, false))
  {
    hide RecordStepStates, TouchStates, Strip, Confirmed, WriteApprovals;
  }

  lemma RefusedResolve(env: Env, st: State, call: Call)
    requires call.op.ResolveApproval?
    requires !ResolveResult(st, call.op.approvalId, call.op.decision, call.op.authority,
                            call.loads.own.approvals).Finalised?
    ensures Next(env, st, call) == st
  {
    hide RecordStepStates, TouchStates, Strip, Confirmed, WriteApprovals;
  }

  lemma ResolveKeepsInv(env: Env, st: State, call: Call)
    requires EnvOk(env) && Inv(env, st) && CallOk(env, st, call) && call.op.ResolveApproval? && call.loads == ALL_READ
    ensures Inv(env, Next(env, st, call))
  {
    hide Next, Strip, Confirmed, WriteApprovals, RecordStepStates, TouchStates, Known, Agreed, Counted, Journals,
         Sound, Ahead;
    var op, now := call.op, call.now;
    if ResolveResult(st, op.approvalId, op.decision, op.authority).Finalised? {
      var id, d := op.approvalId, ParseDecision(op.decision).value;
      var c := st.approvals[id].(review := Resolved(d, op.reviewer));
      var runId := c.runId;
      var filed := st.(approvals := WriteApprovals(env, st.approvals[id := c]));
      var s := ResolvedStep(runId, id, d, op.refs);
      WriteScrubbedApprovals(env, st, id, c);
      RedactCheckpointTwice(env, c);
      assert RedactCheckpoint(env, st.approvals[id]) == st.approvals[id];
      ResolutionFiled(env, st, id, RedactCheckpoint(env, c));
      ResolvedKeyTag(runId, id);
      RecordCompletes(env, filed, runId, s, now, Some(id));
      FileRecordTouch(env, st, filed, runId, s, now, if d.Approved? then "resumable" else "denied");
      NextOfResolve(env, st, call);
    } else {
      RefusedResolve(env, st, call);
    }
  }

  lemma LastStepId(env: Env, st: State, runId: string, load: Load := READ)
    requires Entries(env, st, runId) != [] && ResumeResult(env, st, runId, load).Resumes?
    ensures var es := Entries(env, st, runId); var from := es[|es| - 1].stepId;
            ResumeResult(env, st, runId, load).fromStep == if from == "" then "start" else from
  {
    hide Read, PendingOf;
    var rs := Records(env, st, runId);
    assert Entries(env, st, runId)[|rs| - 1] == EntryOf(env, rs[|rs| - 1]);
  }

  /** Whether or not the resume key has been used before. */
  lemma ResumeStepKeepsInv(env: Env, st: State, runId: string, s: Step, now: int)
    requires EnvOk(env) && Inv(env, st) && KeyKept(env, s.key)
    requires ResumeResult(env, st, runId).Resumes?
    requires s.key == ResumeKey(runId, ResumeResult(env, st, runId).fromStep, env.secondText(now))
    ensures Inv(env, Last(st, RecordStepStates(env, st, runId, s, now)))
  {
    hide Inv, ResumeResult;
    ResumeKeyTag(runId, ResumeResult(env, st, runId).fromStep, env.secondText(now));
    PlainStepKeepsInv(env, st, runId, s, now);
  }

  lemma ResumeKeepsInv(env: Env, st: State, call: Call)
    requires EnvOk(env) && Inv(env, st) && CallOk(env, st, call) && call.op.ResumeRun? && call.loads == ALL_READ
    ensures Inv(env, Next(env, st, call))
  {
    var runId, now := call.op.runId, call.now;
    var outcome := ResumeResult(env, st, runId);
    if outcome.Resumes? {
      var s := ResumedStep(runId, outcome.fromStep, env.secondText(now), call.op.refs);
      ResumeStepKeepsInv(env, st, runId, s, now);
      var steps := RecordStepStates(env, st, runId, s, now);
      LastOfBoth(st, steps, TouchStates(env, Last(st, steps), runId, "running", false));
      TouchKeepsInv(env, Last(st, steps), runId, "running");
    }
  }

  lemma PlainKeepsInv(env: Env, st: State, call: Call)
    requires EnvOk(env) && Inv(env, st) && CallOk(env, st, call) && call.loads == ALL_READ
    ensures Inv(env, Next(env, st, call))
  {
    hide Inv, EnvOk, RecordStepStates;
    match call.op
    case CreateRun(_, _) => CreateRunKeepsInv(env, st, call);
    case RecordStep(runId, s) => PlainStepKeepsInv(env, st, runId, s, call.now);
    case RecordToolCall(_, _) => ToolCallKeepsInv(env, st, call);
    case CreateApproval(_, _, _, _) => CreateApprovalKeepsInv(env, st, call);
    case ResolveApproval(_, _, _, _, _) => ResolveKeepsInv(env, st, call);
    case ResumeRun(_, _) => ResumeKeepsInv(env, st, call);
  }

  lemma CallKeepsInv(env: Env, st: State, call: Call)
    requires EnvOk(env) && Inv(env, st) && CallOk(env, st, call)
    ensures Inv(env, Next(env, st, call))
  {
    hide Inv, EnvOk, Next, KeysOk;
    HarmlessIsPlain(env, st, call);
    PlainKeepsInv(env, st, Plain(call));
  }

  // ---------- every run ----------

  ghost predicate CallsOk(env: Env, st: State, calls: seq<Call>)
    decreases |calls|
  {
    calls == [] || (CallOk(env, st, calls[0]) && CallsOk(env, Next(env, st, calls[0]), calls[1..]))
  }

  lemma {:induction false} RunKeepsInv(env: Env, st: State, calls: seq<Call>)
    requires EnvOk(env) && Inv(env, st) && CallsOk(env, st, calls)
    ensures Inv(env, After(env, st, calls))
    decreases |calls|
  {
    if calls != [] {
      CallKeepsInv(env, st, calls[0]);
      RunKeepsInv(env, Next(env, st, calls[0]), calls[1..]);
    }
  }

  lemma EmptyInv(env: Env)
    ensures Inv(env, EMPTY)
  {
    assert forall r :: Entries(env, EMPTY, r) == [];
  }

  /** After any run of operations: counters equal what they count, and a checkpoint is resolved
      exactly when its run's journal holds its resolution record, which carries the decision. */
  lemma ViewsAgree(env: Env, calls: seq<Call>)
    requires EnvOk(env) && CallsOk(env, EMPTY, calls)
    ensures var st := After(env, EMPTY, calls);
            && (forall r :: r in st.index ==>
                  && st.index[r].stepCount == |Records(env, st, r)|
                  && st.index[r].pending == |PendingOf(env, st.approvals, r)|)
            && (forall id :: id in st.approvals ==> AgreesOn(env, st, id))
            && Known(env, st)
  {
    EmptyInv(env);
    RunKeepsInv(env, EMPTY, calls);
  }

  /** In a reached state no two records of one journal share a non-empty key. */
  lemma KeysAreUsedOnce(env: Env, calls: seq<Call>, runId: string, i: nat, j: nat)
    requires EnvOk(env) && CallsOk(env, EMPTY, calls)
    requires var es := Entries(env, After(env, EMPTY, calls), runId);
             i < |es| && j < |es| && es[i].key != "" && es[i].key == es[j].key
    ensures i == j
  {
    EmptyInv(env);
    RunKeepsInv(env, EMPTY, calls);
    assert KeysOnce(Entries(env, After(env, EMPTY, calls), runId));
  }
}
