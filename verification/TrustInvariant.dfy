/** The invariant of the trust store over runs of completed operations, and what follows. */
module TrustInvariant {
  import opened Wrappers
  import opened Redaction
  import opened HashChain
  import opened TrustStore
  import opened TrustCrash
  import opened TrustViews

  // ---------- the invariant ----------

  /** What is on disk has been scrubbed, and scrubbing it again changes nothing. */
  ghost predicate Scrubbed(env: Env, st: State) {
    && (forall r :: r in st.index ==> env.Scrub(st.index[r].status) == st.index[r].status)
    && (forall id :: id in st.approvals ==>
          && RedactCheckpoint(env, st.approvals[id]) == st.approvals[id]
          && env.Scrub(ResolvedKey(st.approvals[id].runId, id)) == ResolvedKey(st.approvals[id].runId, id))
  }

  /** Step counts are journal lengths and pending counts are numbers of pending checkpoints,
      except perhaps the pending count of one run. */
  ghost predicate CountedBut(env: Env, st: State, but: Option<string>) {
    forall r :: r in st.index ==>
      && st.index[r].stepCount == |Entries(env, st, r)|
      && (but != Some(r) ==>
            st.index[r].pending == |PendingOf(env, st.approvals, r)| && st.index[r].stepCount > 0)
  }

  ghost predicate Counted(env: Env, st: State) { CountedBut(env, st, None) }

  predicate KeyHasStatus(es: seq<Entry>, key: string, status: string) {
    exists i :: 0 <= i < |es| && es[i].key == key && es[i].status == status
  }

  /** A checkpoint is resolved exactly when the journal of its run holds its resolution record,
      and that record carries the decision. */
  ghost predicate AgreesOn(env: Env, st: State, id: string)
    requires id in st.approvals
  {
    var c := st.approvals[id];
    var es := Entries(env, st, c.runId);
    && (c.review.Resolved? <==> HasKey(es, ResolvedKey(c.runId, id)))
    && (c.review.Resolved? ==> KeyHasStatus(es, ResolvedKey(c.runId, id), c.review.decision.Text()))
  }

  ghost predicate AgreedBut(env: Env, st: State, but: Option<string>) {
    forall id :: id in st.approvals && but != Some(id) ==> AgreesOn(env, st, id)
  }

  ghost predicate Agreed(env: Env, st: State) { AgreedBut(env, st, None) }

  /** Every approval record in a journal belongs to a checkpoint of that run. */
  ghost predicate Known(env: Env, st: State) {
    forall r, id ::
      HasKey(Entries(env, st, r), ApprovalKey(r, id)) || HasKey(Entries(env, st, r), ResolvedKey(r, id)) ==>
        id in st.approvals && st.approvals[id].runId == r
  }

  ghost predicate Inv(env: Env, st: State) {
    Sound(env, st) && Journals(env, st) && Scrubbed(env, st) && Counted(env, st) && Agreed(env, st) && Known(env, st)
  }

  // ---------- what a call must meet ----------

  predicate KeyKept(env: Env, key: string) { env.Scrub(key) == key }

  /** No load fails on a file that has entries when it is loaded. */
  predicate Harmless(st: State, call: Call) {
    var loads := call.loads;
    && (st.index != map[] ==> loads.own.index) && (st.approvals != map[] ==> loads.own.approvals)
    && (st.index != map[] || call.op.CreateRun? ==> loads.step.index && loads.touch.index)
    && (st.approvals != map[] || call.op.CreateApproval? ==> loads.step.approvals && loads.touch.approvals)
  }

  /** The same call when every load succeeds. */
  function Plain(call: Call): Call { call.(loads := ALL_READ) }

  predicate CallOk(env: Env, st: State, call: Call) { Harmless(st, call) && KeysOk(env, st, call) }

  /** Generated ids are fresh, the keys used and the run of a new checkpoint are left alone by the
      scrubber, and a caller's own key stays out of the approval namespaces. */
  predicate KeysOk(env: Env, st: State, call: Call) {
    match call.op
    case CreateRun(runId, _) =>
      && runId !in st.index && Entries(env, st, runId) == []
      && (forall id :: id in st.approvals ==> st.approvals[id].runId != runId)
      && KeyKept(env, CreatedKey(runId))
    case RecordStep(runId, s) =>
      KeyKept(env, s.key) && !Under(runId, APPROVAL_TAG, s.key) && !Under(runId, RESOLVED_TAG, s.key)
    case RecordToolCall(runId, use) => KeyKept(env, ToolKey(runId, use.tool, use.argsId))
    case CreateApproval(runId, approvalId, _, _) =>
      && approvalId !in st.approvals && env.Scrub(runId) == runId
      && KeyKept(env, ApprovalKey(runId, approvalId)) && KeyKept(env, ResolvedKey(runId, approvalId))
    case ResolveApproval(_, _, _, _, _) => true
    case ResumeRun(runId, _) =>
      var outcome := ResumeResult(env, st, runId, call.loads.own);
      outcome.Resumes? ==> KeyKept(env, ResumeKey(runId, outcome.fromStep, env.secondText(call.now)))
  }

  lemma TouchHarmless(env: Env, st: State, runId: string, status: string, increment: bool, load: Load)
    requires (st.index != map[] ==> load.index) && (st.approvals != map[] ==> load.approvals)
    ensures TouchStates(env, st, runId, status, increment, load) == TouchStates(env, st, runId, status, increment)
  {
    hide WriteIndex, PendingOf;
  }

  lemma RecordHarmless(env: Env, st: State, runId: string, s: Step, now: int, load: Load)
    requires (st.index != map[] ==> load.index) && (st.approvals != map[] ==> load.approvals)
    ensures RecordStepStates(env, st, runId, s, now, load) == RecordStepStates(env, st, runId, s, now)
    ensures var t := Last(st, RecordStepStates(env, st, runId, s, now));
            t.index.Keys == st.index.Keys && t.approvals == st.approvals
  {
    hide Read, Find, StepFields, WithHash, PendingOf;
    if !AlreadyRecorded(env, st, runId, s.key) {
      TouchHarmless(env, AppendStep(env, st, runId, s, now), runId, s.status, true, load);
    }
  }

  lemma FiledHarmless(env: Env, st: State, filed: State, runId: string, s: Step, now: int, status: string, loads: Loads)
    requires filed.index != map[] ==> loads.step.index && loads.touch.index
    requires filed.approvals != map[] ==> loads.step.approvals && loads.touch.approvals
    ensures var plain := [filed] + RecordStepStates(env, filed, runId, s, now);
            var recorded := [filed] + RecordStepStates(env, filed, runId, s, now, loads.step);
            recorded + TouchStates(env, Last(st, recorded), runId, status, false, loads.touch)
            == plain + TouchStates(env, Last(st, plain), runId, status, false)
  {
    hide RecordStepStates, TouchStates;
    RecordHarmless(env, filed, runId, s, now, loads.step);
    var steps := RecordStepStates(env, filed, runId, s, now);
    var done := Last(filed, steps);
    assert Last(st, [filed] + steps) == done;
    if done.index == map[] { assert filed.index.Keys == {}; }
    TouchHarmless(env, done, runId, status, false, loads.touch);
  }

  lemma ResumeHarmless(env: Env, st: State, runId: string, s: Step, now: int, loads: Loads)
    requires st.index != map[] ==> loads.step.index && loads.touch.index
    requires st.approvals != map[] ==> loads.step.approvals && loads.touch.approvals
    ensures var plain := RecordStepStates(env, st, runId, s, now);
            var recorded := RecordStepStates(env, st, runId, s, now, loads.step);
            recorded + TouchStates(env, Last(st, recorded), runId, "running", false, loads.touch)
            == plain + TouchStates(env, Last(st, plain), runId, "running", false)
  {
    hide RecordStepStates, TouchStates;
    RecordHarmless(env, st, runId, s, now, loads.step);
    TouchHarmless(env, Last(st, RecordStepStates(env, st, runId, s, now)), runId, "running", false, loads.touch);
  }

  /** Loads that fail on nothing change nothing. */
  lemma HarmlessIsPlain(env: Env, st: State, call: Call)
    requires Harmless(st, call)
    ensures CallOk(env, st, call) ==> CallOk(env, st, Plain(call))
    ensures States(env, st, call) == States(env, st, Plain(call)) && Next(env, st, call) == Next(env, st, Plain(call))
  {
    hide RecordStepStates, TouchStates, ParseDecision, Confirmed, PendingOf, Records, WriteApprovals, WriteIndex;
    var now, loads := call.now, call.loads;
    match call.op
    case CreateRun(runId, refs) =>
      var listed := st.(index := WriteIndex(env, st.index[runId := Run("running", 0, 0)]));
      RecordHarmless(env, listed, runId, CreatedStep(runId, refs), now, loads.step);
    case RecordStep(runId, s) => RecordHarmless(env, st, runId, s, now, loads.step);
    case RecordToolCall(runId, use) => RecordHarmless(env, st, runId, ToolStep(runId, use), now, loads.step);
    case CreateApproval(runId, id, authorityId, refs) =>
      var filed := st.(approvals := WriteApprovals(env, st.approvals[id := Checkpoint(runId, Pending, authorityId)]));
      FiledHarmless(env, st, filed, runId, CheckpointStep(runId, id, refs), now, "pending_approval", loads);
    case ResolveApproval(id, decision, reviewer, authority, refs) =>
      if ResolveResult(st, id, decision, authority).Finalised? {
        var d := ParseDecision(decision).value;
        var c := st.approvals[id].(review := Resolved(d, reviewer));
        var filed := st.(approvals := WriteApprovals(env, st.approvals[id := c]));
        FiledHarmless(env, st, filed, c.runId, ResolvedStep(c.runId, id, d, refs), now,
                      if d.Approved? then "resumable" else "denied", loads);
      }
    case ResumeRun(runId, refs) =>
      var outcome := ResumeResult(env, st, runId);
      if outcome.Resumes? {
        ResumeHarmless(env, st, runId, ResumedStep(runId, outcome.fromStep, env.secondText(now), refs), now, loads);
      }
  }

  // ---------- writing what is already scrubbed ----------

  lemma WriteScrubbedIndex(env: Env, st: State, runId: string, run: Run)
    requires Scrubbed(env, st)
    ensures WriteIndex(env, st.index[runId := run]) == st.index[runId := run.(status := env.Scrub(run.status))]
  {
  }

  lemma WriteScrubbedApprovals(env: Env, st: State, id: string, c: Checkpoint)
    requires Scrubbed(env, st)
    ensures WriteApprovals(env, st.approvals[id := c]) == st.approvals[id := RedactCheckpoint(env, c)]
  {
  }

  // ---------- keys in growing journals ----------

  lemma HasKeyGrows(es: seq<Entry>, e: Entry, key: string)
    ensures HasKey(es + [e], key) <==> HasKey(es, key) || e.key == key
  {
    if HasKey(es, key) {
      var i :| 0 <= i < |es| && es[i].key == key;
      assert (es + [e])[i].key == key;
    }
    assert (es + [e])[|es|] == e;
  }

  lemma KeyHasStatusGrows(es: seq<Entry>, e: Entry, key: string, status: string)
    requires KeyHasStatus(es, key, status)
    ensures KeyHasStatus(es + [e], key, status)
  {
    var i :| 0 <= i < |es| && es[i].key == key && es[i].status == status;
    assert (es + [e])[i] == es[i];
  }

  /** Recording a step changes which keys a journal holds only by the step's own key. */
  lemma RecordedKeys(env: Env, st: State, t: State, runId: string, s: Step, now: int, r: string, key: string)
    requires Recorded(env, st, t, runId, s, now) && KeyKept(env, s.key)
    ensures HasKey(Entries(env, t, r), key) <==>
            HasKey(Entries(env, st, r), key) || (r == runId && s.key == key && !Repeats(env, st, runId, s.key))
  {
    if r == runId && !Repeats(env, st, runId, s.key) {
      HasKeyGrows(Entries(env, st, r), NewEntry(env, runId, s, now), key);
    }
  }

  lemma RecordedKeepsAgreement(env: Env, st: State, t: State, runId: string, s: Step, now: int, id: string)
    requires Recorded(env, st, t, runId, s, now) && KeyKept(env, s.key)
    requires id in st.approvals && id in t.approvals && t.approvals[id] == st.approvals[id]
    requires AgreesOn(env, st, id) && s.key != ResolvedKey(st.approvals[id].runId, id)
    ensures AgreesOn(env, t, id)
  {
    var c := st.approvals[id];
    var key := ResolvedKey(c.runId, id);
    RecordedKeys(env, st, t, runId, s, now, c.runId, key);
    if c.review.Resolved? && c.runId == runId && !Repeats(env, st, runId, s.key) {
      KeyHasStatusGrows(Entries(env, st, runId), NewEntry(env, runId, s, now), key, c.review.decision.Text());
    }
  }

  // ---------- counts ----------

  /** A recorded step settles the counts of its run. */
  lemma RecordedSettlesCounts(env: Env, st: State, t: State, runId: string, s: Step, now: int)
    requires Scrubbed(env, st) && CountedBut(env, st, Some(runId)) && env.codec.KeepsDigests()
    requires Recorded(env, st, t, runId, s, now) && !Repeats(env, st, runId, s.key)
    requires t.approvals == st.approvals && t.index == TouchedIndex(env, st, runId, s.status, 1)
    ensures Counted(env, t) && Scrubbed(env, t)
  {
    if runId in st.index {
      var run := st.index[runId];
      var status := if s.status != "" then s.status else run.status;
      WriteScrubbedIndex(env, st, runId, Run(status, run.stepCount + 1, |PendingOf(env, st.approvals, runId)|));
      assert env.Scrub(env.Scrub(status)) == env.Scrub(status);
    }
  }

  lemma TouchKeepsCounts(env: Env, st: State, runId: string, status: string)
    requires Scrubbed(env, st) && Counted(env, st) && env.codec.KeepsDigests()
    ensures var t := st.(index := TouchedIndex(env, st, runId, status, 0));
            && Counted(env, t) && Scrubbed(env, t)
  {
    var t := st.(index := TouchedIndex(env, st, runId, status, 0));
    SameJournals(env, st, t);
    if runId in st.index {
      var run := st.index[runId];
      var shown := if status != "" then status else run.status;
      WriteScrubbedIndex(env, st, runId, Run(shown, run.stepCount, |PendingOf(env, st.approvals, runId)|));
      assert env.Scrub(env.Scrub(shown)) == env.Scrub(shown);
    }
  }

  /** A final `_touch_run` keeps everything. */
  lemma TouchKeepsInv(env: Env, st: State, runId: string, status: string)
    requires FieldsKept(env) && Inv(env, st)
    ensures Inv(env, Last(st, TouchStates(env, st, runId, status, false)))
  {
    TouchEffect(env, st, runId, status, false);
    TouchKeepsCounts(env, st, runId, status);
    var t := Last(st, TouchStates(env, st, runId, status, false));
    SameJournals(env, st, t);
    TouchSafe(env, st, runId, status, false);
    assert Typed(env, t) by {
      forall r ensures AllTyped(Records(env, t, r)) { assert AllTyped(Records(env, st, r)); }
    }
    assert Journals(env, t) by {
      forall r ensures KeysOnce(Entries(env, t, r)) { assert KeysOnce(Entries(env, st, r)); }
    }
    assert Agreed(env, t) by {
      forall id | id in t.approvals ensures AgreesOn(env, t, id) { assert AgreesOn(env, st, id); }
    }
    assert Known(env, t);
  }

  // ---------- recording one step, from a state whose dictionaries may be ahead ----------

  /** A state between the dictionary write of an operation and its journal record: everything
      holds but the counts of the run and the agreement of the checkpoint being changed. */
  ghost predicate Ahead(env: Env, st: State, runId: string, id: Option<string>) {
    && Sound(env, st) && Journals(env, st) && Scrubbed(env, st)
    && CountedBut(env, st, Some(runId)) && AgreedBut(env, st, id) && Known(env, st)
  }

  lemma RecordCompletes(env: Env, st: State, runId: string, s: Step, now: int, id: Option<string>)
    requires EnvOk(env) && Ahead(env, st, runId, id)
    requires KeyKept(env, s.key) && !Repeats(env, st, runId, s.key)
    requires Under(runId, RESOLVED_TAG, s.key) ==>
               && id.Some? && id.value in st.approvals && st.approvals[id.value].runId == runId
               && s.key == ResolvedKey(runId, id.value)
               && st.approvals[id.value].review.Resolved?
               && env.Scrub(s.status) == st.approvals[id.value].review.decision.Text()
    requires !Under(runId, RESOLVED_TAG, s.key) ==> id == None
    requires Under(runId, APPROVAL_TAG, s.key) ==>
               exists a :: a in st.approvals && st.approvals[a].runId == runId && s.key == ApprovalKey(runId, a)
    ensures Inv(env, Last(st, RecordStepStates(env, st, runId, s, now)))
  {
    var t := Last(st, RecordStepStates(env, st, runId, s, now));
    RecordStepEffect(env, st, runId, s, now);
    RecordStepSafe(env, st, runId, s, now);
    RecordedKeepsJournals(env, st, t, runId, s, now);
    RecordedSettlesCounts(env, st, t, runId, s, now);
    forall x | x in t.approvals
      ensures AgreesOn(env, t, x)
    {
      ResolvedKeyTag(st.approvals[x].runId, x);
      if id == Some(x) {
        ResolutionRecorded(env, st, t, runId, s, now, x);
      } else {
        if s.key == ResolvedKey(runId, x) { KeysNameTheirCheckpoint(runId, x, id.value); }
        KeyBelongsToRun(env, st, t, runId, s, now, x);
      }
    }
    forall r, x | HasKey(Entries(env, t, r), ApprovalKey(r, x)) || HasKey(Entries(env, t, r), ResolvedKey(r, x))
      ensures x in t.approvals && t.approvals[x].runId == r
    {
      RecordedKeys(env, st, t, runId, s, now, r, ApprovalKey(r, x));
      RecordedKeys(env, st, t, runId, s, now, r, ResolvedKey(r, x));
      ApprovalKeyTag(r, x);
      ResolvedKeyTag(r, x);
      if r == runId && s.key == ApprovalKey(r, x) {
        var a :| a in st.approvals && st.approvals[a].runId == runId && s.key == ApprovalKey(runId, a);
        KeysNameTheirCheckpoint(r, x, a);
      } else if r == runId && s.key == ResolvedKey(r, x) {
        KeysNameTheirCheckpoint(r, x, id.value);
      }
    }
  }

  lemma ResolutionRecorded(env: Env, st: State, t: State, runId: string, s: Step, now: int, x: string)
    requires Recorded(env, st, t, runId, s, now) && KeyKept(env, s.key) && !Repeats(env, st, runId, s.key)
    requires x in st.approvals && st.approvals[x].runId == runId && t.approvals == st.approvals
    requires s.key == ResolvedKey(runId, x) && st.approvals[x].review.Resolved?
    requires env.Scrub(s.status) == st.approvals[x].review.decision.Text()
    ensures AgreesOn(env, t, x)
  {
    var e := NewEntry(env, runId, s, now);
    var es := Entries(env, t, runId);
    assert es[|es| - 1] == e;
  }

  /** A resolution key of another checkpoint is none of this step's business. */
  lemma KeyBelongsToRun(env: Env, st: State, t: State, runId: string, s: Step, now: int, x: string)
    requires Recorded(env, st, t, runId, s, now) && KeyKept(env, s.key)
    requires x in st.approvals && t.approvals == st.approvals && AgreesOn(env, st, x)
    requires st.approvals[x].runId == runId ==> s.key != ResolvedKey(runId, x)
    ensures AgreesOn(env, t, x)
  {
    var c := st.approvals[x];
    if c.runId == runId {
      RecordedKeepsAgreement(env, st, t, runId, s, now, x);
    } else {
      assert Entries(env, t, c.runId) == Entries(env, st, c.runId);
    }
  }
}
