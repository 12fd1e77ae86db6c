/** Resuming: only with nothing pending, and never twice from one boundary. */
module TrustResume {
  import opened Wrappers
  import opened Redaction
  import opened HashChain
  import opened TrustStore
  import opened Text
  import opened TrustCrash
  import opened TrustViews
  import opened TrustInvariant
  import opened TrustSteps
  import opened TrustCalm
  import opened TrustRuns
  import opened TrustOnce

  const BOUNDARY: set<string> := RESUMABLE + {"resumable"}

  /** In a reached state the decision can be read off the index and the journal: the index can be
      read and lists the run, its counter of pending approvals is zero unless the approvals file
      cannot be read, and either it or its last step stands at a boundary.  It resumes from its last
      step. */
  lemma ResumesIff(env: Env, st: State, runId: string, load: Load := READ)
    requires EnvOk(env) && Inv(env, st)
    ensures var es, outcome := Entries(env, st, runId), ResumeResult(env, st, runId, load);
            && (outcome.Resumes? <==>
                  && load.index && runId in st.index && (load.approvals ==> st.index[runId].pending == 0)
                  && (st.index[runId].status in BOUNDARY || (es != [] && es[|es| - 1].status in RESUMABLE)))
            && (outcome.Resumes? ==>
                  && es != []
                  && outcome.fromStep == if es[|es| - 1].stepId == "" then "start" else es[|es| - 1].stepId)
  {
    hide Inv, ResumeResult;
    if runId in st.index && load.index {
      InvFacts(env, st, runId);
      ResumeResultByViews(env, st, runId, load);
      if ResumeResult(env, st, runId, load).Resumes? { LastStepId(env, st, runId, load); }
    } else {
      ResumesListedRun(env, st, runId, load);
    }
  }

  lemma ResumesListedRun(env: Env, st: State, runId: string, load: Load := READ)
    requires runId !in Loaded(st.index, load.index)
    ensures !ResumeResult(env, st, runId, load).Resumes?
  {
  }

  /** A waiting run is resumed exactly when the approvals file cannot be read and it stands at a
      boundary, which a run that waits for an approval does. */
  lemma WaitingRunResumesIff(env: Env, st: State, runId: string, load: Load)
    requires EnvOk(env) && Inv(env, st) && runId in st.index && st.index[runId].pending > 0 && load.index
    requires st.index[runId].status == "pending_approval"
    ensures ResumeResult(env, st, runId, load).Resumes? <==> !load.approvals
  {
    ResumesIff(env, st, runId, load);
    assert "pending_approval" in RESUMABLE;
  }

  lemma InvFacts(env: Env, st: State, r: string)
    requires Inv(env, st) && r in st.index
    ensures AllTyped(Records(env, st, r)) && Entries(env, st, r) != []
    ensures st.index[r].pending == |PendingOf(env, st.approvals, r)|
    ensures env.Scrub(st.index[r].status) == st.index[r].status
  {
    assert st.index[r].stepCount == |Entries(env, st, r)|;
  }

  lemma ResumeResultByViews(env: Env, st: State, r: string, load: Load)
    requires load.index
    requires r in st.index && AllTyped(Records(env, st, r)) && Entries(env, st, r) != []
    requires env.Scrub(st.index[r].status) == st.index[r].status
    ensures var es := Entries(env, st, r);
            ResumeResult(env, st, r, load).Resumes? <==>
              (load.approvals ==> PendingOf(env, st.approvals, r) == {})
              && (st.index[r].status in BOUNDARY || es[|es| - 1].status in RESUMABLE)
  {
    var rs, es := Records(env, st, r), Entries(env, st, r);
    assert PendingOf(env, map[], r) == {};
    assert es[|es| - 1] == EntryOf(env, rs[|rs| - 1]) && TypedRecord(rs[|rs| - 1]);
  }

  lemma CalmFacts(env: Env, st: State, r: string)
    requires Calm(env, st) && r in st.index
    ensures AllTyped(Records(env, st, r)) && Entries(env, st, r) != []
    ensures env.Scrub(st.index[r].status) == st.index[r].status
  {
  }

  // ---------- boundaries ----------

  /** Nothing about the run invites a resume. */
  ghost predicate AtRest(env: Env, st: State, r: string) {
    var es := Entries(env, st, r);
    r in st.index ==> st.index[r].status !in BOUNDARY && es != [] && es[|es| - 1].status !in RESUMABLE
  }

  predicate NewRecordAtBoundary(old_: seq<Entry>, es: seq<Entry>) {
    exists i :: |old_| <= i < |es| && es[i].status in BOUNDARY
  }

  predicate NewlyApproved(base: State, st: State, r: string) {
    exists id :: id in st.approvals && st.approvals[id].runId == r
      && st.approvals[id].review.Resolved? && st.approvals[id].review.decision.Approved?
      && !(id in base.approvals && base.approvals[id].review.Resolved?)
  }

  /** Since `base`, the run got a record with a resumable status or an approval. */
  predicate NewBoundary(env: Env, base: State, st: State, r: string) {
    NewRecordAtBoundary(Entries(env, base, r), Entries(env, st, r)) || NewlyApproved(base, st, r)
  }

  /** `base` is a past of `st`. */
  ghost predicate Later(env: Env, base: State, st: State, r: string) {
    Entries(env, base, r) <= Entries(env, st, r) && KeepsApprovals(base.approvals, st.approvals)
  }

  lemma LaterByCall(env: Env, base: State, st: State, call: Call, r: string)
    requires EnvOk(env) && Calm(env, st) && CallCalm(env, st, call) && Later(env, base, st, r)
    ensures Later(env, base, Next(env, st, call), r) && Later(env, st, Next(env, st, call), r)
  {
    hide Calm, CallCalm, Next, Entries, EnvOk, NoteOf;
    CalmIsSound(env, st);
    CalmMidway(env, st, call);
    NotedGrows(env, st, call, r);
    CallKeepsCalm(env, st, call);
  }

  lemma CalmIsSound(env: Env, st: State)
    requires Calm(env, st)
    ensures Sound(env, st) && IndexClean(env, st)
  {
  }

  lemma CalmMidway(env: Env, st: State, call: Call)
    requires EnvOk(env) && Calm(env, st)
    ensures Arrived(env, st, Next(env, st, call), call)
  {
    hide Next, Arrived, Midway, States;
    CalmIsSound(env, st);
    StatesMidway(env, st, call);
  }

  lemma NewBoundaryStays(env: Env, base: State, st: State, t: State, r: string)
    requires NewBoundary(env, base, st, r) && Later(env, st, t, r)
    ensures NewBoundary(env, base, t, r)
  {
    if NewRecordAtBoundary(Entries(env, base, r), Entries(env, st, r)) {
      var i :| |Entries(env, base, r)| <= i < |Entries(env, st, r)| && Entries(env, st, r)[i].status in BOUNDARY;
      assert Entries(env, t, r)[i] == Entries(env, st, r)[i];
    }
  }

  // ---------- what each call does to a run at rest ----------

  lemma RestWords(env: Env)
    requires WordsKept(env)
    ensures forall word :: word in {"running", "resumed", "ok", "denied", "approved"} ==>
              env.Scrub(word) == word && word !in BOUNDARY && word !in RESUMABLE
    ensures env.Scrub("pending_approval") == "pending_approval" && "pending_approval" in RESUMABLE
  {
  }

  /** A run that the call creates. */
  lemma CreatedAtRest(env: Env, st: State, call: Call)
    requires EnvOk(env) && Calm(env, st) && KeysOk(env, st, call) && call.op.CreateRun?
    ensures AtRest(env, Next(env, st, call), call.op.runId)
  {
    hide Calm, Next, Entries;
    var r, t := call.op.runId, Next(env, st, call);
    CalmIsSound(env, st);
    CalmMidway(env, st, call);
    NextIndex(env, st, call, r);
    RestWords(env);
    var es := Entries(env, t, r);
    assert es == [NewEntry(env, r, CreatedStep(r, call.op.refs), call.now)];
  }

  /** A call that says nothing about the run. */
  lemma OthersRest(env: Env, st: State, call: Call, r: string)
    requires EnvOk(env) && Calm(env, st) && AtRest(env, st, r)
    requires var note := NoteOf(env, st, call); note.None? || note.value.runId != r
    ensures AtRest(env, Next(env, st, call), r)
  {
    hide Calm, Next, Entries, NoteOf, StatusAfter, Arrived;
    CalmIsSound(env, st);
    CalmMidway(env, st, call);
    NextIndex(env, st, call, r);
    CreatesItsOwn(env, st, call);
    OthersStay(env, st, Next(env, st, call), call, r);
  }

  lemma OthersStay(env: Env, st: State, t: State, call: Call, r: string)
    requires Arrived(env, st, t, call)
    requires var note := NoteOf(env, st, call); note.None? || note.value.runId != r
    ensures Entries(env, t, r) == Entries(env, st, r)
    ensures r in st.index ==> StatusAfter(env, st, call, r) == st.index[r].status
  {
    hide NoteOf, Sound, FinalStatus, Entries;
    CreatesItsOwn(env, st, call);
  }

  /** What the last record and the status of the call's own run are. */
  lemma OwnChanges(env: Env, st: State, t: State, call: Call, r: string)
    requires Arrived(env, st, t, call) && r in st.index && !call.op.CreateRun?
    requires var note := NoteOf(env, st, call); note.Some? && note.value.runId == r
    ensures var s := NoteOf(env, st, call).value.step;
            && Entries(env, t, r) == (if Repeats(env, st, r, s.key) then Entries(env, st, r)
                                      else Entries(env, st, r) + [NewEntry(env, r, s, call.now)])
            && (StatusAfter(env, st, call, r) == st.index[r].status
                || (FinalStatus(env, st, call) != ""
                    && StatusAfter(env, st, call, r) == env.Scrub(FinalStatus(env, st, call)))
                || (!Repeats(env, st, r, s.key) && StatusAfter(env, st, call, r) == env.Scrub(s.status)))
  {
    hide NoteOf, Sound, FinalStatus, Entries, Repeats;
  }

  lemma CreatesItsOwn(env: Env, st: State, call: Call)
    ensures call.op.CreateRun? ==> NoteOf(env, st, call).Some? && NoteOf(env, st, call).value.runId == call.op.runId
  {
  }

  /** The last word of a call is no boundary, unless it asks for an approval or gives one. */
  lemma FinalWords(env: Env, st: State, call: Call)
    requires WordsKept(env)
    ensures FinalStatus(env, st, call) != "" && env.Scrub(FinalStatus(env, st, call)) in BOUNDARY ==>
              call.op.CreateApproval?
              || (call.op.ResolveApproval? && NoteOf(env, st, call).Some?
                  && ParseDecision(call.op.decision) == Some(Approved))
  {
    hide ParseDecision, Confirmed, ResumeResult;
    RestWords(env);
  }

  /** The checkpoint that a call files is new, and so is its record. */
  lemma FiledIsNew(env: Env, st: State, call: Call)
    requires Calm(env, st) && KeysOk(env, st, call) && call.op.CreateApproval?
    ensures !Repeats(env, st, call.op.runId, ApprovalKey(call.op.runId, call.op.approvalId))
  {
    hide Entries;
  }

  lemma ApprovedNow(env: Env, base: State, st: State, call: Call)
    requires Calm(env, st) && call.op.ResolveApproval? && NoteOf(env, st, call).Some?
    requires ParseDecision(call.op.decision) == Some(Approved) && KeepsApprovals(base.approvals, st.approvals)
    ensures NewlyApproved(base, Next(env, st, call), NoteOf(env, st, call).value.runId)
  {
    hide ParseDecision, Confirmed, Next, Backed, IndexClean;
    var id, t := call.op.approvalId, Next(env, st, call);
    NextApprovals(env, st, call);
    CalmIsClean(env, st);
    CleanCheckpoint(env, st.approvals, id);
    assert id in t.approvals && t.approvals[id].runId == st.approvals[id].runId;
    assert !(id in base.approvals && base.approvals[id].review.Resolved?);
  }

  lemma CalmIsClean(env: Env, st: State)
    requires Calm(env, st)
    ensures ApprovalsClean(env, st.approvals)
  {
  }

  lemma LaterKeeps(env: Env, base: State, st: State, r: string)
    requires Later(env, base, st, r)
    ensures KeepsApprovals(base.approvals, st.approvals)
  {
  }

  lemma ApprovalIsNew(env: Env, base: State, t: State, r: string)
    requires NewlyApproved(base, t, r)
    ensures NewBoundary(env, base, t, r)
  {
  }

  /** At most one record is added; its status is a new boundary, or the run stays at rest with its
      old status, with that of the record or with one that is no boundary. */
  lemma RestAfterStep(env: Env, base: State, st: State, t: State, r: string, e: Entry, added: bool)
    requires AtRest(env, st, r) && Later(env, base, st, r) && r in st.index
    requires Entries(env, t, r) == if added then Entries(env, st, r) + [e] else Entries(env, st, r)
    requires r in t.index ==>
               || t.index[r].status == st.index[r].status || t.index[r].status !in BOUNDARY
               || (added && (t.index[r].status == e.status || e.status in BOUNDARY))
    ensures AtRest(env, t, r) || NewBoundary(env, base, t, r)
  {
    hide Entries, KeepsApprovals;
    var es := Entries(env, t, r);
    if added { assert es[|es| - 1] == e; }
  }

  /** A call that records a step of the run, which is listed. */
  lemma OwnRest(env: Env, base: State, st: State, call: Call, r: string)
    requires EnvOk(env) && Calm(env, st) && CallCalm(env, st, call) && r in st.index && !call.op.CreateRun?
    requires AtRest(env, st, r) && Later(env, base, st, r)
    requires var note := NoteOf(env, st, call); note.Some? && note.value.runId == r
    ensures AtRest(env, Next(env, st, call), r) || NewBoundary(env, base, Next(env, st, call), r)
  {
    hide Calm, Next, Entries, NoteOf, KeysOk, FinalStatus, ParseDecision, StatusAfter, Arrived, Repeats, KeepsApprovals,
         NewlyApproved;
    var t, s := Next(env, st, call), NoteOf(env, st, call).value.step;
    CalmIsSound(env, st);
    CalmMidway(env, st, call);
    NextIndex(env, st, call, r);
    OwnChanges(env, st, t, call, r);
    FinalWords(env, st, call);
    hide AtRest, NewBoundary, Later, IndexClean;
    if call.op.CreateApproval? { FiledAtBoundary(env, st, call); }
    if call.op.ResolveApproval? && ParseDecision(call.op.decision) == Some(Approved) {
      LaterKeeps(env, base, st, r);
      ApprovedNow(env, base, st, call);
      ApprovalIsNew(env, base, t, r);
    } else {
      RestAfterStep(env, base, st, t, r, NewEntry(env, r, s, call.now), !Repeats(env, st, r, s.key));
    }
  }

  /** The record of a new checkpoint is new, and stands at a boundary. */
  lemma FiledAtBoundary(env: Env, st: State, call: Call)
    requires WordsKept(env) && Calm(env, st) && KeysOk(env, st, call) && call.op.CreateApproval?
    ensures var note := NoteOf(env, st, call);
            && note.Some? && note.value.runId == call.op.runId
            && !Repeats(env, st, note.value.runId, note.value.step.key)
            && env.Scrub(note.value.step.status) in RESUMABLE
  {
    hide Calm, KeysOk, Repeats, NoteOf;
    FiledIsNew(env, st, call);
    FiledWord(env, st, call);
  }

  lemma FiledWord(env: Env, st: State, call: Call)
    requires WordsKept(env) && call.op.CreateApproval?
    ensures var note := NoteOf(env, st, call);
            && note.Some? && note.value.runId == call.op.runId
            && note.value.step.key == ApprovalKey(call.op.runId, call.op.approvalId)
            && env.Scrub(note.value.step.status) in RESUMABLE
  {
  }

  lemma CallRest(env: Env, base: State, st: State, call: Call, r: string)
    requires EnvOk(env) && Calm(env, st) && CallCalm(env, st, call)
    requires AtRest(env, st, r) && Later(env, base, st, r)
    ensures AtRest(env, Next(env, st, call), r) || NewBoundary(env, base, Next(env, st, call), r)
  {
    hide Calm, Next, Entries, AtRest, NewBoundary, Later, NoteOf, StatusAfter;
    var note := NoteOf(env, st, call);
    if note.None? || note.value.runId != r {
      OthersRest(env, st, call, r);
    } else if call.op.CreateRun? {
      CreatesItsOwn(env, st, call);
      CreatedAtRest(env, st, call);
    } else if r in st.index {
      OwnRest(env, base, st, call, r);
    } else {
      CalmIsSound(env, st);
      NextIndex(env, st, call, r);
      UnlistedRests(env, Next(env, st, call), r);
    }
  }

  lemma UnlistedRests(env: Env, st: State, r: string)
    requires r !in st.index
    ensures AtRest(env, st, r)
  {
  }

  lemma {:induction false} RunRest(env: Env, base: State, st: State, calls: seq<Call>, r: string)
    requires EnvOk(env) && Calm(env, st) && CallsCalm(env, st, calls) && Later(env, base, st, r)
    requires AtRest(env, st, r) || NewBoundary(env, base, st, r)
    ensures var t := After(env, st, calls);
            AtRest(env, t, r) || NewBoundary(env, base, t, r)
    decreases |calls|
  {
    hide Calm, CallCalm, Next, AtRest, NewBoundary, Later, EnvOk;
    if calls != [] {
      var next := Next(env, st, calls[0]);
      LaterByCall(env, base, st, calls[0], r);
      if NewBoundary(env, base, st, r) { NewBoundaryStays(env, base, st, next, r); }
      else { CallRest(env, base, st, calls[0], r); }
      CallKeepsCalm(env, st, calls[0]);
      RunRest(env, base, next, calls[1..], r);
    }
  }

  // ---------- one resume ----------

  /** The step that a resuming run records. */
  function ResumeStepOf(env: Env, st: State, call: Call): Step
    requires call.op.ResumeRun? && ResumeResult(env, st, call.op.runId, call.loads.own).Resumes?
  {
    ResumedStep(call.op.runId, ResumeResult(env, st, call.op.runId, call.loads.own).fromStep,
                env.secondText(call.now), call.op.refs)
  }

  /** The call is a resume, and it goes through. */
  predicate GoesThrough(env: Env, st: State, call: Call) {
    call.op.ResumeRun? && ResumeResult(env, st, call.op.runId, call.loads.own).Resumes?
  }

  /** The resume leaves a trace that keeps the run from being resumed once more.  It has a new
      record, or needs none because the last step is at no boundary; and a touch that can read the
      index follows a record or ends the call, or none is needed because the run's status is no
      boundary. */
  predicate Spent(env: Env, st: State, call: Call)
    requires GoesThrough(env, st, call)
  {
    var runId := call.op.runId;
    var es, unused := Entries(env, st, runId), !Repeats(env, st, runId, ResumeStepOf(env, st, call).key);
    && (unused || es == [] || es[|es| - 1].status !in RESUMABLE)
    && (call.loads.touch.index || (unused && call.loads.step.index)
        || runId !in st.index || st.index[runId].status !in BOUNDARY)
  }

  lemma ResumesListed(env: Env, st: State, call: Call)
    requires GoesThrough(env, st, call)
    ensures call.loads.own.index && call.op.runId in st.index
  {
    hide Records, PendingOf;
  }

  /** What a resume leaves. */
  lemma ResumeViews(env: Env, st: State, call: Call)
    requires EnvOk(env) && Calm(env, st) && GoesThrough(env, st, call)
    ensures var r, s, t := call.op.runId, ResumeStepOf(env, st, call), Next(env, st, call);
            var unused := !Repeats(env, st, r, s.key);
            && r in st.index && r in t.index && t.approvals == st.approvals
            && t.index[r].status == (if call.loads.touch.index then "running"
                                     else if unused && call.loads.step.index then "resumed"
                                     else st.index[r].status)
            && Entries(env, t, r) == if !unused then Entries(env, st, r)
                                     else Entries(env, st, r) + [NewEntry(env, r, s, call.now)]
  {
    hide Calm, ResumeResult, Entries, RecordStepStates, TouchStates;
    var r, s := call.op.runId, ResumeStepOf(env, st, call);
    ResumesListed(env, st, call);
    CalmIsSound(env, st);
    CalmMidway(env, st, call);
    ResumeIndex(env, st, r, s, call.now, call.loads, r);
    RestWords(env);
  }

  /** A resume leaves the run at rest exactly when it is spent. */
  lemma RestsIffSpent(env: Env, st: State, call: Call)
    requires EnvOk(env) && Calm(env, st) && GoesThrough(env, st, call)
    ensures AtRest(env, Next(env, st, call), call.op.runId) <==> Spent(env, st, call)
  {
    hide Calm, Next, Repeats, ResumeResult, Entries;
    var r, s, t := call.op.runId, ResumeStepOf(env, st, call), Next(env, st, call);
    ResumeViews(env, st, call);
    CalmFacts(env, st, r);
    RestWords(env);
    var e, es := NewEntry(env, r, s, call.now), Entries(env, t, r);
    if !Repeats(env, st, r, s.key) { assert es[|es| - 1] == e && e.status == "resumed"; }
  }

  lemma RestingDoesNotResume(env: Env, st: State, r: string, load: Load)
    requires Calm(env, st) && AtRest(env, st, r)
    ensures !ResumeResult(env, st, r, load).Resumes?
  {
    hide Calm, ResumeResult;
    if r in st.index && load.index {
      CalmFacts(env, st, r);
      ResumeResultByViews(env, st, r, load);
    } else {
      ResumesListedRun(env, st, r, load);
    }
  }

  lemma LaterIsReflexive(env: Env, st: State, r: string)
    ensures Later(env, st, st, r)
  {
  }

  /** Whatever operations follow, and whichever of their loads fail: when the run is resumed once
      more, its journal gained a record with a resumable status or one of its checkpoints was
      approved in between. */
  ghost predicate ResumedOncePerBoundary(env: Env, st: State, r: string) {
    forall between, load ::
      CallsCalm(env, st, between) && ResumeResult(env, After(env, st, between), r, load).Resumes? ==>
        NewBoundary(env, st, After(env, st, between), r)
  }

  lemma RestingIsResumedAtNewBoundary(env: Env, st: State, between: seq<Call>, r: string, load: Load)
    requires EnvOk(env) && Calm(env, st) && AtRest(env, st, r) && CallsCalm(env, st, between)
    requires ResumeResult(env, After(env, st, between), r, load).Resumes?
    ensures NewBoundary(env, st, After(env, st, between), r)
  {
    hide Calm, NewBoundary, AtRest;
    LaterIsReflexive(env, st, r);
    RunRest(env, st, st, between, r);
    RunKeepsCalm(env, st, between);
    if AtRest(env, After(env, st, between), r) { RestingDoesNotResume(env, After(env, st, between), r, load); }
  }

  /** A resume that is not spent can be repeated at once, and nothing was approved meanwhile. */
  lemma UnspentIsResumedAgain(env: Env, st: State, call: Call)
    requires EnvOk(env) && Calm(env, st) && KeysOk(env, st, call) && GoesThrough(env, st, call)
    requires !Spent(env, st, call)
    ensures ResumeResult(env, Next(env, st, call), call.op.runId, call.loads.own).Resumes?
    ensures Next(env, st, call).approvals == st.approvals
  {
    hide Calm, Next, Repeats, ResumeResult, KeysOk, Entries;
    var r, t := call.op.runId, Next(env, st, call);
    ResumesListed(env, st, call);
    ResumeViews(env, st, call);
    ResumeIsCalm(st, call);
    CallKeepsCalm(env, st, call);
    CalmFacts(env, st, r);
    CalmFacts(env, t, r);
    ResumeResultByViews(env, st, r, call.loads.own);
    ResumeResultByViews(env, t, r, call.loads.own);
    var s := ResumeStepOf(env, st, call);
    var e, es := NewEntry(env, r, s, call.now), Entries(env, t, r);
    if !Repeats(env, st, r, s.key) { assert es[|es| - 1] == e; }
  }

  lemma ResumeIsCalm(st: State, call: Call)
    requires call.op.ResumeRun?
    ensures !ForgetsApprovals(st, call)
  {
  }

  /** Exactly the spent resumes are followed by no second resume of the same boundary. */
  lemma NoBoundaryIsResumedTwiceIff(env: Env, st: State, call: Call)
    requires EnvOk(env) && Calm(env, st) && KeysOk(env, st, call) && GoesThrough(env, st, call)
    ensures ResumedOncePerBoundary(env, Next(env, st, call), call.op.runId) <==> Spent(env, st, call)
  {
    hide Calm, Next, KeysOk, NewBoundary, AtRest, ResumeResult, Spent;
    var r, base := call.op.runId, Next(env, st, call);
    ResumeIsCalm(st, call);
    CallKeepsCalm(env, st, call);
    RestsIffSpent(env, st, call);
    if Spent(env, st, call) {
      forall between, load | CallsCalm(env, base, between)
          && ResumeResult(env, After(env, base, between), r, load).Resumes?
        ensures NewBoundary(env, base, After(env, base, between), r)
      {
        RestingIsResumedAtNewBoundary(env, base, between, r, load);
      }
    } else {
      UnspentIsResumedAgain(env, st, call);
      NothingIsNew(env, base, r);
      assert After(env, base, []) == base && CallsCalm(env, base, []);
    }
  }

  lemma NothingIsNew(env: Env, st: State, r: string)
    ensures !NewBoundary(env, st, st, r)
  {
  }

  /** A resume both of whose touches fail leaves a run at a boundary where it was: it is resumed from
      the same boundary again, although its journal holds the record of the first resume. */
  lemma UnreadIndexResumesTwice(env: Env, st: State, call: Call)
    requires EnvOk(env) && Calm(env, st) && KeysOk(env, st, call) && GoesThrough(env, st, call)
    requires !call.loads.step.index && !call.loads.touch.index && st.index[call.op.runId].status in BOUNDARY
    ensures !ResumedOncePerBoundary(env, Next(env, st, call), call.op.runId)
  {
    hide Calm, Next, KeysOk, Entries;
    ResumesListed(env, st, call);
    NoBoundaryIsResumedTwiceIff(env, st, call);
  }
}
