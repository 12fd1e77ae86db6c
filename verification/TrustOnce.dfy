/** Things that happen at most once: a step under one key, a resolution, a resume from one
    boundary. */
module TrustOnce {
  import opened Wrappers
  import opened Redaction
  import opened HashChain
  import opened TrustStore
  import opened Text
  import opened TrustCrash
  import opened TrustViews
  import opened TrustInvariant
  import opened TrustSteps
  import opened TrustRuns

  // ---------- journals only grow ----------

  lemma CallGrows(env: Env, st: State, call: Call, r: string)
    requires env.codec.KeepsDigests() && CrashSafe(env, st)
    ensures Records(env, st, r) <= Records(env, Next(env, st, call), r)
  {
    hide Records, Next;
    StatesGrow(env, st, call);
  }

  /** Whatever is called, records already in a journal stay where they are. */
  lemma {:induction false} JournalsOnlyGrow(env: Env, st: State, calls: seq<Call>, r: string)
    requires env.codec.KeepsDigests() && CrashSafe(env, st)
    ensures CrashSafe(env, After(env, st, calls))
    ensures Records(env, st, r) <= Records(env, After(env, st, calls), r)
    decreases |calls|
  {
    if calls != [] {
      CallGrows(env, st, calls[0], r);
      CallSafe(env, st, calls[0]);
      JournalsOnlyGrow(env, Next(env, st, calls[0]), calls[1..], r);
    }
  }

  // ---------- one step per key ----------

  lemma {:induction false} FindInPrefix(rs: seq<Record>, more: seq<Record>, key: string)
    requires rs <= more && Find(rs, key).Some?
    ensures Find(more, key) == Find(rs, key)
  {
    if Field(rs[0], KEY) != Str(key) {
      assert rs[1..] <= more[1..];
      FindInPrefix(rs[1..], more[1..], key);
    }
  }

  lemma {:induction false} FindAppended(rs: seq<Record>, r: Record, key: string)
    requires Find(rs, key).None?
    ensures Find(rs + [r], key) == if Field(r, KEY) == Str(key) then Some(r) else None
  {
    if rs == [] {
      assert rs + [r] == [r] && [r][1..] == [];
    } else {
      assert (rs + [r])[1..] == rs[1..] + [r];
      FindAppended(rs[1..], r, key);
    }
  }

  /** After a step is recorded under a key, the key finds that record exactly when the scrubber
      leaves the key alone or the key was in use before. */
  lemma RecordedIsFoundIff(env: Env, st: State, runId: string, s: Step, now: int)
    requires FieldsKept(env) && Sound(env, st) && s.key != ""
    ensures var t := Last(st, RecordStepStates(env, st, runId, s, now));
            && (AlreadyRecorded(env, t, runId, s.key) <==>
                  env.Scrub(s.key) == s.key || AlreadyRecorded(env, st, runId, s.key))
            && (AlreadyRecorded(env, t, runId, s.key) ==>
                  Find(Records(env, t, runId), s.key) == Some(RecordStepResult(env, st, runId, s, now)))
  {
    hide Read, Redact, StepFields;
    if !AlreadyRecorded(env, st, runId, s.key) {
      var rs := Records(env, st, runId);
      var r := WithHash(rs, StepFields(env, runId, s, now), env.codec);
      var t := Last(st, RecordStepStates(env, st, runId, s, now));
      AppendStepRecords(env, st, runId, s, now);
      RecordStepDisk(env, st, runId, s, now);
      SameJournals(env, AppendStep(env, st, runId, s, now), t);
      NewRecordFields(env, rs, runId, s, now);
      FindAppended(rs, r, s.key);
      assert Field(r, KEY) == Str(env.Scrub(s.key));
    }
  }

  /** Recording is idempotent under a key the scrubber leaves alone: however many operations lie
      between, repeating the call with that key, whatever else it says, returns the record stored
      the first time and writes nothing. */
  lemma RecordingIsIdempotent(env: Env, st: State, runId: string, s: Step, now: int, calls: seq<Call>,
                              retry: Step, later: int)
    requires FieldsKept(env) && Sound(env, st)
    requires s.key != "" && retry.key == s.key
    requires env.Scrub(s.key) == s.key
    ensures var first := Last(st, RecordStepStates(env, st, runId, s, now));
            var t := After(env, first, calls);
            && RecordStepStates(env, t, runId, retry, later) == []
            && RecordStepResult(env, t, runId, retry, later) == RecordStepResult(env, st, runId, s, now)
  {
    var first := Last(st, RecordStepStates(env, st, runId, s, now));
    RecordedIsFoundIff(env, st, runId, s, now);
    GrowsIsReflexive(env, st);
    RecordStepSafe(env, st, runId, s, now);
    RecordStepGrows(env, st, st, runId, s, now);
    JournalsOnlyGrow(env, first, calls, runId);
    FindInPrefix(Records(env, first, runId), Records(env, After(env, first, calls), runId), s.key);
  }

  /** A key that the scrubber changes records the same step again on an immediate retry. */
  lemma ScrubbedKeyRecordsTwice(env: Env, st: State, runId: string, s: Step, now: int, later: int)
    requires FieldsKept(env) && Sound(env, st)
    requires s.key != "" && env.Scrub(s.key) != s.key && !AlreadyRecorded(env, st, runId, s.key)
    ensures var first := Last(st, RecordStepStates(env, st, runId, s, now));
            var second := Last(first, RecordStepStates(env, first, runId, s, later));
            |Records(env, second, runId)| == |Records(env, st, runId)| + 2
  {
    var first := Last(st, RecordStepStates(env, st, runId, s, now));
    RecordedIsFoundIff(env, st, runId, s, now);
    NewStepAddsOne(env, st, runId, s, now);
    NewStepAddsOne(env, first, runId, s, later);
  }

  lemma NewStepAddsOne(env: Env, st: State, runId: string, s: Step, now: int)
    requires env.codec.KeepsDigests() && CrashSafe(env, st) && !AlreadyRecorded(env, st, runId, s.key)
    ensures var t := Last(st, RecordStepStates(env, st, runId, s, now));
            CrashSafe(env, t) && |Records(env, t, runId)| == |Records(env, st, runId)| + 1
  {
    RecordStepSafe(env, st, runId, s, now);
    AppendStepRecords(env, st, runId, s, now);
    RecordStepDisk(env, st, runId, s, now);
    SameJournals(env, AppendStep(env, st, runId, s, now), Last(st, RecordStepStates(env, st, runId, s, now)));
  }

  // ---------- one resolution per checkpoint ----------

  /** A checkpoint stays in the approvals file through a call exactly unless a new one is filed by a
      call that could not read the file. */
  lemma CheckpointKeptIff(env: Env, st: State, call: Call, id: string)
    requires id in st.approvals && (call.op.CreateApproval? ==> call.op.approvalId != id)
    ensures id in Next(env, st, call).approvals <==> !ForgetsApprovals(st, call)
  {
    hide Next, ParseDecision, Confirmed;
    NextApprovals(env, st, call);
  }

  lemma ResolvedAsConfirmed(env: Env, st: State, call: Call, id: string)
    requires Scrubbed(env, st) && id in st.approvals && st.approvals[id].review.Pending?
    requires call.op.CreateApproval? ==> call.op.approvalId !in st.approvals
    ensures var approvals := ApprovalsAfter(env, st, call);
            && (id in approvals <==> !ForgetsApprovals(st, call))
            && (id in approvals ==>
                  && (approvals[id].review.Resolved? <==>
                        && call.op.ResolveApproval? && call.op.approvalId == id && call.loads.own.approvals
                        && ParseDecision(call.op.decision).Some?
                        && Confirmed(st.approvals[id], ParseDecision(call.op.decision).value, call.op.authority))
                  && (approvals[id].review.Resolved? ==>
                        Some(approvals[id].review.decision) == ParseDecision(call.op.decision))
                  && (!approvals[id].review.Resolved? ==> approvals[id] == st.approvals[id]))
  {
    hide ParseDecision, Confirmed, WriteApprovals;
    var op := call.op;
    assert RedactCheckpoint(env, st.approvals[id]) == st.approvals[id];
    if op.CreateApproval? {
      var c := Checkpoint(op.runId, Pending, op.authorityId);
      WrittenAt(env, Loaded(st.approvals, call.loads.own.approvals)[op.approvalId := c], id);
    } else if op.ResolveApproval? && op.approvalId in st.approvals && ParseDecision(op.decision).Some? {
      var c := st.approvals[op.approvalId].(review := Resolved(ParseDecision(op.decision).value, op.reviewer));
      WrittenAt(env, st.approvals[op.approvalId := c], id);
    }
  }

  /** A pending checkpoint becomes resolved exactly by a `resolve_approval` for it that can read the
      approvals file, with a readable decision that its authority, when it has one and it is asked,
      confirms. */
  lemma ResolvedOnlyAsConfirmed(env: Env, st: State, call: Call, id: string)
    requires Scrubbed(env, st) && id in st.approvals && st.approvals[id].review.Pending?
    requires call.op.CreateApproval? ==> call.op.approvalId !in st.approvals
    ensures id in Next(env, st, call).approvals <==> !ForgetsApprovals(st, call)
    ensures id in Next(env, st, call).approvals ==>
              var after := Next(env, st, call).approvals[id];
              && (after.review.Resolved? <==>
                    && call.op.ResolveApproval? && call.op.approvalId == id && call.loads.own.approvals
                    && ParseDecision(call.op.decision).Some?
                    && Confirmed(st.approvals[id], ParseDecision(call.op.decision).value, call.op.authority))
              && (after.review.Resolved? ==> Some(after.review.decision) == ParseDecision(call.op.decision))
              && (!after.review.Resolved? ==> after == st.approvals[id])
  {
    hide Next, ParseDecision, Confirmed, ApprovalsAfter, Scrubbed;
    NextApprovals(env, st, call);
    ResolvedAsConfirmed(env, st, call, id);
  }

  lemma WrittenAt(env: Env, approvals: map<string, Checkpoint>, id: string)
    ensures WriteApprovals(env, approvals).Keys == approvals.Keys
    ensures id in approvals ==> WriteApprovals(env, approvals)[id] == RedactCheckpoint(env, approvals[id])
  {
  }

  /** A resolved checkpoint stays as it is through a call exactly unless the call forgets it. */
  lemma ResolvedKeptIff(env: Env, st: State, call: Call, id: string)
    requires Scrubbed(env, st) && id in st.approvals && st.approvals[id].review.Resolved?
    requires call.op.CreateApproval? ==> call.op.approvalId !in st.approvals
    ensures var t := Next(env, st, call);
            (id in t.approvals && t.approvals[id] == st.approvals[id]) <==> !ForgetsApprovals(st, call)
  {
    hide Next, ParseDecision, Confirmed, RecordStepStates, TouchStates;
    NextApprovals(env, st, call);
    assert RedactCheckpoint(env, st.approvals[id]) == st.approvals[id];
  }

  lemma ResolvedKeptByCall(env: Env, st: State, call: Call, id: string)
    requires Scrubbed(env, st) && CallOk(env, st, call)
    requires id in st.approvals && st.approvals[id].review.Resolved?
    ensures var t := Next(env, st, call);
            id in t.approvals && t.approvals[id] == st.approvals[id]
  {
    ResolvedKeptIff(env, st, call, id);
  }

  /** A resolved checkpoint never changes again. */
  lemma {:induction false} ResolvedIsFinal(env: Env, st: State, calls: seq<Call>, id: string)
    requires EnvOk(env) && Inv(env, st) && CallsOk(env, st, calls)
    requires id in st.approvals && st.approvals[id].review.Resolved?
    ensures var t := After(env, st, calls);
            id in t.approvals && t.approvals[id] == st.approvals[id]
    decreases |calls|
  {
    if calls != [] {
      ResolvedKeptByCall(env, st, calls[0], id);
      CallKeepsInv(env, st, calls[0]);
      ResolvedIsFinal(env, Next(env, st, calls[0]), calls[1..], id);
    }
  }
}
