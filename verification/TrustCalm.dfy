/** What crashes and failed loads leave of the agreement between journals, approvals and index, as
    long as no call forgets the approvals on file. */
module TrustCalm {
  import opened Wrappers
  import opened Redaction
  import opened HashChain
  import opened TrustStore
  import opened Text
  import opened TrustCrash
  import opened TrustViews
  import opened TrustInvariant
  import opened TrustSteps

  // ---------- journals and approvals ----------

  ghost predicate ApprovalsClean(env: Env, approvals: map<string, Checkpoint>) {
    forall id :: id in approvals ==>
      && RedactCheckpoint(env, approvals[id]) == approvals[id]
      && KeyKept(env, ResolvedKey(approvals[id].runId, id))
  }

  /** A resolution record in a journal has its checkpoint resolved, with the decision it carries. */
  ghost predicate BackedOn(env: Env, st: State, id: string)
    requires id in st.approvals
  {
    var c := st.approvals[id];
    var es := Entries(env, st, c.runId);
    HasKey(es, ResolvedKey(c.runId, id)) ==>
      c.review.Resolved? && KeyHasStatus(es, ResolvedKey(c.runId, id), c.review.decision.Text())
  }

  /** Keys are used once, every approval record has its checkpoint and every resolution record a
      checkpoint that is resolved that way.  A crash may leave a checkpoint resolved without its
      record, never the other way round. */
  ghost predicate Backed(env: Env, st: State) {
    && Sound(env, st) && Journals(env, st) && ApprovalsClean(env, st.approvals) && Known(env, st)
    && forall id :: id in st.approvals ==> BackedOn(env, st, id)
  }

  /** The second file keeps every checkpoint of the first, and every resolved one as it is. */
  predicate KeepsApprovals(approvals: map<string, Checkpoint>, after: map<string, Checkpoint>) {
    forall id :: id in approvals ==>
      && id in after && after[id].runId == approvals[id].runId
      && (approvals[id].review.Resolved? ==> after[id] == approvals[id])
  }

  /** Writing one checkpoint leaves the others as they are. */
  lemma WrittenApprovals(env: Env, approvals: map<string, Checkpoint>, id: string, c: Checkpoint)
    requires FieldsKept(env) && ApprovalsClean(env, approvals)
    requires env.Scrub(c.runId) == c.runId && KeyKept(env, ResolvedKey(c.runId, id))
    ensures var after := WriteApprovals(env, approvals[id := c]);
            && ApprovalsClean(env, after) && id in after && after[id] == RedactCheckpoint(env, c)
            && after.Keys == approvals.Keys + {id}
            && forall x :: x in approvals && x != id ==> after[x] == approvals[x]
  {
    assert forall x :: env.Scrub(env.Scrub(x)) == env.Scrub(x);
    assert RedactCheckpoint(env, RedactCheckpoint(env, c)) == RedactCheckpoint(env, c);
    hide RedactCheckpoint, ResolvedKey;
  }

  lemma ApprovalsMove(env: Env, st: State, call: Call)
    requires EnvOk(env) && ApprovalsClean(env, st.approvals) && KeysOk(env, st, call) && !ForgetsApprovals(st, call)
    ensures var after := ApprovalsAfter(env, st, call);
            ApprovalsClean(env, after) && KeepsApprovals(st.approvals, after)
  {
    hide ParseDecision, Confirmed, WriteApprovals, ApprovalsClean, ResolvedKey;
    var op := call.op;
    if op.CreateApproval? {
      assert Loaded(st.approvals, call.loads.own.approvals) == st.approvals;
      WrittenApprovals(env, st.approvals, op.approvalId, Checkpoint(op.runId, Pending, op.authorityId));
    } else if op.ResolveApproval? && NoteOf(env, st, call).Some? {
      var id := op.approvalId;
      CleanCheckpoint(env, st.approvals, id);
      var c := st.approvals[id].(review := Resolved(ParseDecision(op.decision).value, op.reviewer));
      WrittenApprovals(env, st.approvals, id, c);
    }
  }

  lemma CleanCheckpoint(env: Env, approvals: map<string, Checkpoint>, id: string)
    requires ApprovalsClean(env, approvals) && id in approvals
    ensures env.Scrub(approvals[id].runId) == approvals[id].runId
    ensures KeyKept(env, ResolvedKey(approvals[id].runId, id))
  {
    assert RedactCheckpoint(env, approvals[id]) == approvals[id];
  }

  /** Writing the approvals file alone. */
  lemma FiledKeepsBacked(env: Env, st: State, t: State)
    requires Backed(env, st) && Sound(env, t) && (forall r :: Entries(env, t, r) == Entries(env, st, r))
    requires ApprovalsClean(env, t.approvals) && KeepsApprovals(st.approvals, t.approvals)
    ensures Backed(env, t)
  {
    hide Sound, ApprovalsClean, Entries;
    forall r ensures KeysOnce(Entries(env, t, r)) { assert KeysOnce(Entries(env, st, r)); }
    forall id | id in t.approvals ensures BackedOn(env, t, id) {
      if id in st.approvals { assert BackedOn(env, st, id); }
      var r := t.approvals[id].runId;
      if HasKey(Entries(env, t, r), ResolvedKey(r, id)) { assert id in st.approvals; }
    }
    assert Known(env, t);
  }

  /** The step belongs to a checkpoint on file, if its key says so. */
  ghost predicate StepIsBacked(env: Env, st: State, runId: string, s: Step) {
    && KeyKept(env, s.key)
    && (Under(runId, APPROVAL_TAG, s.key) ==>
          exists a :: a in st.approvals && st.approvals[a].runId == runId && s.key == ApprovalKey(runId, a))
    && (Under(runId, RESOLVED_TAG, s.key) ==>
          exists a :: ResolvedBy(env, st, runId, s, a))
  }

  ghost predicate ResolvedBy(env: Env, st: State, runId: string, s: Step, a: string) {
    && a in st.approvals && st.approvals[a].runId == runId && s.key == ResolvedKey(runId, a)
    && st.approvals[a].review.Resolved? && env.Scrub(s.status) == st.approvals[a].review.decision.Text()
  }

  lemma RecordedKeepsKnown(env: Env, st: State, t: State, runId: string, s: Step, now: int)
    requires Known(env, st) && Recorded(env, st, t, runId, s, now) && t.approvals == st.approvals
    requires StepIsBacked(env, st, runId, s)
    ensures Known(env, t)
  {
    hide Entries, Recorded;
    forall r, x | HasKey(Entries(env, t, r), ApprovalKey(r, x)) || HasKey(Entries(env, t, r), ResolvedKey(r, x))
      ensures x in t.approvals && t.approvals[x].runId == r
    {
      RecordedKeys(env, st, t, runId, s, now, r, ApprovalKey(r, x));
      RecordedKeys(env, st, t, runId, s, now, r, ResolvedKey(r, x));
      ApprovalKeyTag(r, x);
      ResolvedKeyTag(r, x);
      if r == runId && s.key == ApprovalKey(r, x) {
        var a :| a in st.approvals && st.approvals[a].runId == runId && s.key == ApprovalKey(runId, a);
        KeysNameTheirCheckpoint(r, x, a);
      } else if r == runId && s.key == ResolvedKey(r, x) {
        var a :| ResolvedBy(env, st, runId, s, a);
        KeysNameTheirCheckpoint(r, x, a);
      }
    }
  }

  lemma RecordedKeepsBackedOn(env: Env, st: State, t: State, runId: string, s: Step, now: int, id: string)
    requires Recorded(env, st, t, runId, s, now) && t.approvals == st.approvals && StepIsBacked(env, st, runId, s)
    requires id in st.approvals && BackedOn(env, st, id)
    ensures BackedOn(env, t, id)
  {
    hide Entries;
    var c := st.approvals[id];
    var r, key := c.runId, ResolvedKey(c.runId, id);
    RecordedKeys(env, st, t, runId, s, now, r, key);
    ResolvedKeyTag(r, id);
    if r == runId && !Repeats(env, st, runId, s.key) {
      var es, e := Entries(env, st, r), NewEntry(env, runId, s, now);
      if s.key == key {
        var a :| ResolvedBy(env, st, runId, s, a);
        KeysNameTheirCheckpoint(r, id, a);
        assert (es + [e])[|es|] == e;
      } else if HasKey(es, key) {
        KeyHasStatusGrows(es, e, key, c.review.decision.Text());
      }
    }
  }

  lemma RecordedKeepsBacked(env: Env, st: State, t: State, runId: string, s: Step, now: int)
    requires Backed(env, st) && Sound(env, t) && Recorded(env, st, t, runId, s, now) && t.approvals == st.approvals
    requires StepIsBacked(env, st, runId, s)
    ensures Backed(env, t)
  {
    hide Sound, ApprovalsClean, Entries, Recorded, BackedOn, Known, StepIsBacked;
    KeptStep(env, st, runId, s);
    RecordedKeepsJournals(env, st, t, runId, s, now);
    RecordedKeepsKnown(env, st, t, runId, s, now);
    forall id | id in t.approvals ensures BackedOn(env, t, id) {
      RecordedKeepsBackedOn(env, st, t, runId, s, now, id);
    }
  }

  lemma KeptStep(env: Env, st: State, runId: string, s: Step)
    requires StepIsBacked(env, st, runId, s)
    ensures env.Scrub(s.key) == s.key
  {
  }

  /** The step a call asks for is backed once the approvals file is written. */
  lemma NoteIsBacked(env: Env, st: State, call: Call, filed: State)
    requires EnvOk(env) && ApprovalsClean(env, st.approvals) && KeysOk(env, st, call)
    requires filed.approvals == ApprovalsAfter(env, st, call)
    ensures var note := NoteOf(env, st, call);
            note.Some? ==> StepIsBacked(env, filed, note.value.runId, note.value.step)
  {
    hide ParseDecision, Confirmed, ResumeResult, Under, ApprovalsClean;
    match call.op
    case CreateRun(runId, _) => CreatedKeyNotReserved(runId);
    case RecordStep(_, _) =>
    case RecordToolCall(runId, use) => ToolKeyNotReserved(runId, use.tool, use.argsId);
    case CreateApproval(runId, id, _, _) =>
      ApprovalKeyTag(runId, id);
      assert filed.approvals[id].runId == runId;
    case ResolveApproval(id, _, _, _, _) => if NoteOf(env, st, call).Some? { ResolutionIsBacked(env, st, call, filed); }
    case ResumeRun(runId, _) =>
      var outcome := ResumeResult(env, st, runId, call.loads.own);
      if outcome.Resumes? { ResumeKeyTag(runId, outcome.fromStep, env.secondText(call.now)); }
  }

  lemma ResolutionIsBacked(env: Env, st: State, call: Call, filed: State)
    requires EnvOk(env) && ApprovalsClean(env, st.approvals) && call.op.ResolveApproval?
    requires filed.approvals == ApprovalsAfter(env, st, call) && NoteOf(env, st, call).Some?
    ensures var note := NoteOf(env, st, call).value; StepIsBacked(env, filed, note.runId, note.step)
  {
    hide ParseDecision, Confirmed, Under;
    var id, note := call.op.approvalId, NoteOf(env, st, call).value;
    ResolvedKeyTag(note.runId, id);
    assert RedactCheckpoint(env, st.approvals[id]) == st.approvals[id];
    assert ResolvedBy(env, filed, note.runId, note.step, id);
  }

  lemma NotedNothing(env: Env, st: State, t: State, now: int)
    requires Noted(env, st, t, None, now)
    ensures forall r :: Entries(env, t, r) == Entries(env, st, r)
  {
  }

  /** However far a call has come when it is cut short. */
  lemma MidwayKeepsBacked(env: Env, st: State, t: State, call: Call)
    requires EnvOk(env) && Backed(env, st) && KeysOk(env, st, call) && !ForgetsApprovals(st, call)
    requires Midway(env, st, t, call)
    ensures Backed(env, t) && KeepsApprovals(st.approvals, t.approvals)
  {
    hide EnvOk, Sound, ApprovalsAfter, NoteOf, KeysOk, ForgetsApprovals, BackedOn, Known, Journals, Recorded,
         ApprovalsClean, KeepsApprovals;
    ApprovalsMove(env, st, call);
    KeepsItself(st.approvals);
    var filed := st.(approvals := ApprovalsAfter(env, st, call));
    SameJournals(env, st, filed);
    SoundIsSafe(env, st);
    SameJournalsSafe(env, st, filed);
    SoundWithJournals(env, st, filed);
    FiledKeepsBacked(env, st, filed);
    if Arrived(env, st, t, call) {
      NoteIsBacked(env, st, call, filed);
      ArrivedFromFiled(env, st, filed, t, call);
    } else {
      NotedNothing(env, st, t, call.now);
      FiledKeepsBacked(env, st, t);
    }
  }

  lemma KeepsItself(approvals: map<string, Checkpoint>)
    ensures KeepsApprovals(approvals, approvals)
  {
  }

  lemma ArrivedFromFiled(env: Env, st: State, filed: State, t: State, call: Call)
    requires Backed(env, filed) && Arrived(env, st, t, call) && t.approvals == filed.approvals
    requires forall r :: Entries(env, filed, r) == Entries(env, st, r)
    requires var note := NoteOf(env, st, call);
             note.Some? ==> StepIsBacked(env, filed, note.value.runId, note.value.step)
    ensures Backed(env, t)
  {
    hide Sound, NoteOf, StepIsBacked;
    var note := NoteOf(env, st, call);
    if note.Some? {
      RecordedFromFiled(env, filed, st, t, note.value.runId, note.value.step, call.now);
      RecordedKeepsBacked(env, filed, t, note.value.runId, note.value.step, call.now);
    } else {
      BackedElsewhere(env, filed, t);
    }
  }

  lemma BackedElsewhere(env: Env, st: State, t: State)
    requires Backed(env, st) && Sound(env, t) && t.approvals == st.approvals
    requires forall r :: Entries(env, t, r) == Entries(env, st, r)
    ensures Backed(env, t)
  {
    hide Sound;
    KeepsItself(st.approvals);
    FiledKeepsBacked(env, st, t);
  }

  // ---------- the index after a call ----------

  ghost predicate IndexClean(env: Env, st: State) {
    forall r :: r in st.index ==> env.Scrub(st.index[r].status) == st.index[r].status
  }

  /** The status that a call leaves its run with when it ends. */
  function FinalStatus(env: Env, st: State, call: Call): string {
    match call.op
    case CreateApproval(_, _, _, _) => "pending_approval"
    case ResolveApproval(id, decision, _, _, _) =>
      if NoteOf(env, st, call).None? then ""
      else if ParseDecision(decision).value.Approved? then "resumable" else "denied"
    case ResumeRun(_, _) => if NoteOf(env, st, call).None? then "" else "running"
    case _ => ""
  }

  function StatusBefore(env: Env, st: State, call: Call, r: string): string {
    if call.op.CreateRun? && r == call.op.runId then env.Scrub("running")
    else if r in st.index then st.index[r].status else ""
  }

  /** The status of `r` after a recorded step. */
  function StepStatus(env: Env, st: State, note: Note, load: Load, r: string, before: string): string {
    if r == note.runId && note.step.status != "" && load.index && !Repeats(env, st, r, note.step.key)
    then env.Scrub(note.step.status) else before
  }

  /** The status of `r` after a call: its last word is that of the last touch that could read the
      index. */
  function StatusAfter(env: Env, st: State, call: Call, r: string): string {
    var note, before := NoteOf(env, st, call), StatusBefore(env, st, call, r);
    if note.None? then before
    else if r == note.value.runId && FinalStatus(env, st, call) != "" && call.loads.touch.index then
      env.Scrub(FinalStatus(env, st, call))
    else StepStatus(env, st, note.value, call.loads.step, r, before)
  }

  lemma TouchedTo(env: Env, st: State, runId: string, status: string, steps: nat, load: Load, r: string)
    requires FieldsKept(env) && IndexClean(env, st)
    ensures var index := TouchedIndex(env, st, runId, status, steps, load);
            && index.Keys == st.index.Keys && IndexClean(env, st.(index := index))
            && (r in index ==>
                  index[r].status
                  == (if r == runId && status != "" && load.index then env.Scrub(status) else st.index[r].status))
  {
    assert forall x :: env.Scrub(env.Scrub(x)) == env.Scrub(x);
    hide PendingOf;
  }

  /** The index after `record_step`. */
  lemma StepIndex(env: Env, st: State, runId: string, s: Step, now: int, load: Load, r: string)
    requires FieldsKept(env) && Sound(env, st) && IndexClean(env, st)
    ensures var t := Last(st, RecordStepStates(env, st, runId, s, now, load));
            && t.index.Keys == st.index.Keys && IndexClean(env, t)
            && (r in t.index ==> t.index[r].status == StepStatus(env, st, Note(runId, s), load, r, st.index[r].status))
  {
    hide RecordStepStates, Recorded, Sound, TouchedIndex;
    RecordStepEffect(env, st, runId, s, now, load);
    TouchedTo(env, st, runId, s.status, 1, load, r);
  }

  /** The index after a call that files something, records a step and touches the run. */
  lemma FiledIndex(env: Env, st: State, filed: State, runId: string, s: Step, now: int, status: string, loads: Loads,
                   r: string)
    requires FieldsKept(env) && Sound(env, filed) && IndexClean(env, filed)
    ensures var recorded := [filed] + RecordStepStates(env, filed, runId, s, now, loads.step);
            var t := Last(st, recorded + TouchStates(env, Last(st, recorded), runId, status, false, loads.touch));
            && t.index.Keys == filed.index.Keys && IndexClean(env, t)
            && (r in t.index ==>
                  t.index[r].status
                  == (if r == runId && status != "" && loads.touch.index then env.Scrub(status)
                      else StepStatus(env, filed, Note(runId, s), loads.step, r, filed.index[r].status)))
  {
    hide RecordStepStates, TouchStates, Sound, IndexClean, StepStatus, TouchedIndex;
    var steps := RecordStepStates(env, filed, runId, s, now, loads.step);
    var done := Last(filed, steps);
    assert Last(st, [filed] + steps) == done;
    StepIndex(env, filed, runId, s, now, loads.step, r);
    TouchedTo(env, done, runId, status, 0, loads.touch, r);
    TouchEffect(env, done, runId, status, false, loads.touch);
    var touched := TouchStates(env, done, runId, status, false, loads.touch);
    assert Last(st, [filed] + steps + touched) == Last(done, touched);
  }

  lemma ResumeIndex(env: Env, st: State, runId: string, s: Step, now: int, loads: Loads, r: string)
    requires FieldsKept(env) && Sound(env, st) && IndexClean(env, st)
    ensures var steps := RecordStepStates(env, st, runId, s, now, loads.step);
            var t := Last(st, steps + TouchStates(env, Last(st, steps), runId, "running", false, loads.touch));
            && t.index.Keys == st.index.Keys && IndexClean(env, t)
            && (r in t.index ==>
                  t.index[r].status
                  == (if r == runId && loads.touch.index then env.Scrub("running")
                      else StepStatus(env, st, Note(runId, s), loads.step, r, st.index[r].status)))
  {
    hide RecordStepStates, TouchStates, Sound, IndexClean, StepStatus, TouchedIndex;
    var steps := RecordStepStates(env, st, runId, s, now, loads.step);
    var done := Last(st, steps);
    StepIndex(env, st, runId, s, now, loads.step, r);
    TouchedTo(env, done, runId, "running", 0, loads.touch, r);
    TouchEffect(env, done, runId, "running", false, loads.touch);
    var touched := TouchStates(env, done, runId, "running", false, loads.touch);
    assert Last(st, steps + touched) == Last(done, touched);
  }

  /** The runs that the index lists after a call: one that creates a run writes those it could read. */
  function IndexKeys(st: State, call: Call): set<string> {
    if call.op.CreateRun? then Loaded(st.index, call.loads.own.index).Keys + {call.op.runId} else st.index.Keys
  }

  lemma ListedIndex(env: Env, st: State, runId: string, read: bool)
    requires FieldsKept(env) && IndexClean(env, st)
    ensures var listed := ListRun(env, st, runId, read);
            && IndexClean(env, listed) && listed.index.Keys == Loaded(st.index, read).Keys + {runId}
            && listed.index[runId].status == env.Scrub("running")
            && forall r :: r in listed.index && r != runId ==>
                 r in st.index && listed.index[r].status == st.index[r].status
  {
    assert forall x :: env.Scrub(env.Scrub(x)) == env.Scrub(x);
  }

  lemma StatusOfCreated(env: Env, st: State, call: Call, r: string)
    requires call.op.CreateRun?
    ensures var note := Note(call.op.runId, CreatedStep(call.op.runId, call.op.refs));
            StatusAfter(env, st, call, r)
            == StepStatus(env, st, note, call.loads.step, r, StatusBefore(env, st, call, r))
  {
  }

  lemma CreateRunIndex(env: Env, st: State, call: Call, r: string)
    requires FieldsKept(env) && Sound(env, st) && IndexClean(env, st) && call.op.CreateRun?
    ensures var t := Next(env, st, call);
            && IndexClean(env, t) && t.index.Keys == IndexKeys(st, call)
            && (r in t.index ==> t.index[r].status == StatusAfter(env, st, call, r))
  {
    hide RecordStepStates, Sound, IndexClean, WriteIndex, Entries;
    var runId, s := call.op.runId, CreatedStep(call.op.runId, call.op.refs);
    var listed := ListRun(env, st, runId, call.loads.own.index);
    SoundIsSafe(env, st);
    ListedSafe(env, st, runId, call.loads.own.index);
    SoundWithJournals(env, st, listed);
    ListedIndex(env, st, runId, call.loads.own.index);
    StatusOfCreated(env, st, call, r);
    StepIndex(env, listed, runId, s, call.now, call.loads.step, r);
    var steps := RecordStepStates(env, listed, runId, s, call.now, call.loads.step);
    assert Last(st, [listed] + steps) == Last(listed, steps);
  }

  lemma ApprovalIndex(env: Env, st: State, call: Call, r: string)
    requires FieldsKept(env) && Sound(env, st) && IndexClean(env, st)
    requires call.op.CreateApproval? || call.op.ResolveApproval?
    ensures var t := Next(env, st, call);
            && IndexClean(env, t) && t.index.Keys == st.index.Keys
            && (r in t.index ==> t.index[r].status == StatusAfter(env, st, call, r))
  {
    hide RecordStepStates, TouchStates, Sound, IndexClean, StepStatus, WriteApprovals, ParseDecision, Confirmed;
    var op, own := call.op, call.loads.own.approvals;
    SoundIsSafe(env, st);
    if op.CreateApproval? {
      var c := Checkpoint(op.runId, Pending, op.authorityId);
      ApprovalFiledIndex(env, st, op.approvalId, c, own, CheckpointStep(op.runId, op.approvalId, op.refs),
                         "pending_approval", call, r);
    } else if ResolveResult(st, op.approvalId, op.decision, op.authority, own).Finalised? {
      var d := ParseDecision(op.decision).value;
      var c := st.approvals[op.approvalId].(review := Resolved(d, op.reviewer));
      ApprovalFiledIndex(env, st, op.approvalId, c, true, ResolvedStep(c.runId, op.approvalId, d, op.refs),
                         if d.Approved? then "resumable" else "denied", call, r);
    }
  }

  lemma ApprovalFiledIndex(env: Env, st: State, id: string, c: Checkpoint, read: bool, s: Step, status: string,
                           call: Call,
                           r: string)
    requires FieldsKept(env) && Sound(env, st) && IndexClean(env, st) && status != ""
    requires var filed := FileCheckpoint(env, st, id, c, read);
             var recorded := [filed] + RecordStepStates(env, filed, c.runId, s, call.now, call.loads.step);
             States(env, st, call)
             == recorded + TouchStates(env, Last(st, recorded), c.runId, status, false, call.loads.touch)
    requires NoteOf(env, st, call) == Some(Note(c.runId, s)) && FinalStatus(env, st, call) == status
    requires !call.op.CreateRun?
    ensures var t := Next(env, st, call);
            && IndexClean(env, t) && t.index.Keys == st.index.Keys
            && (r in t.index ==> t.index[r].status == StatusAfter(env, st, call, r))
  {
    hide RecordStepStates, TouchStates, Sound, WriteApprovals, NoteOf, FinalStatus, States;
    var filed := FileCheckpoint(env, st, id, c, read);
    SoundIsSafe(env, st);
    FiledSafe(env, st, id, c, read);
    SoundWithJournals(env, st, filed);
    FiledIndex(env, st, filed, c.runId, s, call.now, status, call.loads, r);
  }

  /** The index after a call: which runs it lists, and each with the last word on its status. */
  lemma NextIndex(env: Env, st: State, call: Call, r: string)
    requires FieldsKept(env) && Sound(env, st) && IndexClean(env, st)
    ensures var t := Next(env, st, call);
            && IndexClean(env, t) && t.index.Keys == IndexKeys(st, call)
            && (r in t.index ==> t.index[r].status == StatusAfter(env, st, call, r))
  {
    hide RecordStepStates, TouchStates, Sound, ResumeResult, ToolCallRecord;
    match call.op
    case CreateRun(_, _) => CreateRunIndex(env, st, call, r);
    case RecordStep(runId, s) => StepIndex(env, st, runId, s, call.now, call.loads.step, r);
    case RecordToolCall(runId, use) => StepIndex(env, st, runId, ToolStep(runId, use), call.now, call.loads.step, r);
    case ResumeRun(runId, refs) =>
      var outcome := ResumeResult(env, st, runId, call.loads.own);
      if outcome.Resumes? {
        ResumeIndex(env, st, runId, ResumedStep(runId, outcome.fromStep, env.secondText(call.now), refs), call.now,
                    call.loads, r);
      }
    case _ => ApprovalIndex(env, st, call, r);
  }

  // ---------- runs of completed calls, with loads that fail ----------

  /** Besides, statuses are scrubbed and every listed run has a record. */
  ghost predicate Calm(env: Env, st: State) {
    Backed(env, st) && IndexClean(env, st) && forall r :: r in st.index ==> Entries(env, st, r) != []
  }

  /** Loads may fail, but no call forgets the approvals. */
  predicate CallCalm(env: Env, st: State, call: Call) { KeysOk(env, st, call) && !ForgetsApprovals(st, call) }

  lemma NotedGrows(env: Env, st: State, call: Call, r: string)
    requires Arrived(env, st, Next(env, st, call), call)
    ensures Entries(env, st, r) <= Entries(env, Next(env, st, call), r)
    ensures call.op.CreateRun? && call.op.runId == r ==> Entries(env, Next(env, st, call), r) != []
  {
  }

  lemma CallKeepsCalm(env: Env, st: State, call: Call)
    requires EnvOk(env) && Calm(env, st) && CallCalm(env, st, call)
    ensures Calm(env, Next(env, st, call)) && KeepsApprovals(st.approvals, Next(env, st, call).approvals)
  {
    hide Backed, IndexClean, Next, KeysOk, StatusAfter, Midway, KeepsApprovals, Entries;
    var t := Next(env, st, call);
    BackedIsSound(env, st);
    StatesMidway(env, st, call);
    ArrivedIsMidway(env, st, t, call);
    MidwayKeepsBacked(env, st, t, call);
    forall r | r in t.index ensures Entries(env, t, r) != [] {
      NextIndex(env, st, call, r);
      NotedGrows(env, st, call, r);
    }
    NextIndex(env, st, call, "");
  }

  lemma BackedIsSound(env: Env, st: State)
    requires Backed(env, st)
    ensures Sound(env, st)
  {
  }

  lemma ArrivedIsMidway(env: Env, st: State, t: State, call: Call)
    requires Arrived(env, st, t, call)
    ensures Midway(env, st, t, call)
  {
  }

  ghost predicate CallsCalm(env: Env, st: State, calls: seq<Call>)
    decreases |calls|
  {
    calls == [] || (CallCalm(env, st, calls[0]) && CallsCalm(env, Next(env, st, calls[0]), calls[1..]))
  }

  lemma {:induction false} RunKeepsCalm(env: Env, st: State, calls: seq<Call>)
    requires EnvOk(env) && Calm(env, st) && CallsCalm(env, st, calls)
    ensures Calm(env, After(env, st, calls))
    decreases |calls|
  {
    hide Calm, CallCalm, Next, EnvOk;
    if calls != [] {
      CallKeepsCalm(env, st, calls[0]);
      RunKeepsCalm(env, Next(env, st, calls[0]), calls[1..]);
    }
  }

  lemma EmptyIsCalm(env: Env)
    ensures Calm(env, EMPTY)
  {
    assert forall r :: Entries(env, EMPTY, r) == [];
  }

  lemma InvIsCalm(env: Env, st: State)
    requires Inv(env, st)
    ensures Calm(env, st)
  {
    forall id | id in st.approvals ensures BackedOn(env, st, id) { assert AgreesOn(env, st, id); }
    forall r | r in st.index ensures Entries(env, st, r) != [] {
      assert st.index[r].stepCount == |Entries(env, st, r)|;
    }
  }

  lemma OkIsCalm(env: Env, st: State, call: Call)
    requires CallOk(env, st, call)
    ensures CallCalm(env, st, call)
  {
  }
}
