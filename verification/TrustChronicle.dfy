/** Why a resume key is new: the steps of one journal have different ids as long as no step type or
    status contains the separator of the id, and a resume record names the step just before it. */
module TrustChronicle {
  import opened Wrappers
  import opened Redaction
  import opened HashChain
  import opened TrustStore
  import opened Text
  import opened TrustCrash
  import opened TrustViews
  import opened TrustInvariant
  import opened TrustSteps
  import opened TrustCalm
  import opened TrustRuns
  import opened TrustOnce
  import opened TrustResume

  // ---------- what each call records ----------

  /** Every call adds at most one entry, whichever loads fail: that of the step it asks for, unless
      its key is in use. */
  lemma CallNotes(env: Env, st: State, call: Call)
    requires FieldsKept(env) && Sound(env, st)
    ensures Noted(env, st, Next(env, st, call), NoteOf(env, st, call), call.now)
  {
    hide Sound, Noted, NoteOf, Next;
    StatesMidway(env, st, call);
  }

  // ---------- ids and clocks ----------

  predicate NoColon(s: string) { Without(':', s) }

  /** SHA-1 prefixes are not empty, contain no colon, are left alone by the scrubber, and differ for
      different texts. */
  ghost predicate StepIdsOk(env: Env) {
    && (forall x :: env.Scrub(env.sha(x)) == env.sha(x) && env.sha(x) != "" && NoColon(env.sha(x)))
    && (forall x, y :: env.sha(x) == env.sha(y) ==> x == y)
  }

  /** Different clock readings print differently, never as nothing and without a colon. */
  ghost predicate ClockOk(env: Env) {
    && (forall t :: NoColon(env.clockText(t)) && env.clockText(t) != "")
    && (forall t, u :: env.clockText(t) == env.clockText(u) ==> t == u)
  }

  ghost predicate ClockLike(env: Env, key: string) { exists t :: key == env.clockText(t) }

  lemma StoreKeyIsNoClock(env: Env, key: string, i: nat)
    requires ClockOk(env) && i < |key| && key[i] == ':'
    ensures !ClockLike(env, key)
  {
    forall t ensures key != env.clockText(t) { assert NoColon(env.clockText(t)) && ':' in key; }
  }

  function BeforeColon(s: string): string {
    if s == "" || s[0] == ':' then "" else [s[0]] + BeforeColon(s[1..])
  }

  lemma {:induction false} BeforeFirstColon(a: string, rest: string)
    requires NoColon(a)
    ensures BeforeColon(a + ":" + rest) == a
  {
    if a != "" {
      BeforeFirstColon(a[1..], rest);
      assert (a + ":" + rest)[1..] == a[1..] + ":" + rest;
    }
  }

  lemma ResumeKeysNameTheirStep(runId: string, a: string, s: string, b: string, t: string)
    requires ResumeKey(runId, a, s) == ResumeKey(runId, b, t)
    requires NoColon(a) && NoColon(b)
    ensures a == b
  {
    assert ResumeKey(runId, a, s) == (runId + ":resume:") + (a + ":" + s);
    assert ResumeKey(runId, b, t) == (runId + ":resume:") + (b + ":" + t);
    SameTail(runId + ":resume:", a + ":" + s, b + ":" + t);
    BeforeFirstColon(a, s);
    BeforeFirstColon(b, t);
  }

  // ---------- one journal ----------

  /** What tells the steps of one run apart: the key, or for a keyless step the clock. */
  function Tag(env: Env, e: Entry): string { if e.key != "" then e.key else env.clockText(e.at) }

  /** The entry's id is that of a step whose type and status contain no separator. */
  ghost predicate HasItsStepId(env: Env, runId: string, e: Entry) {
    exists a, b :: NoBar(a) && NoBar(b) && e.stepId == env.sha(StepIdText(runId, a, b, Tag(env, e)))
  }

  ghost predicate NamesResumePoint(runId: string, key: string, from: string) {
    exists second :: key == ResumeKey(runId, from, second)
  }

  /** Steps are identified by their tags, times increase, and a resume record names the step just
      before it. */
  ghost predicate Chronicle(env: Env, runId: string, es: seq<Entry>) {
    && (forall i :: 0 <= i < |es| ==> !ClockLike(env, es[i].key) && HasItsStepId(env, runId, es[i]))
    && (forall i, j :: 0 <= i < j < |es| ==> es[i].at < es[j].at)
    && (forall i :: 0 <= i < |es| && Under(runId, RESUME_TAG, es[i].key) ==>
          i > 0 && NamesResumePoint(runId, es[i].key, es[i - 1].stepId))
  }

  lemma StepIdTellsTag(env: Env, runId: string, a: string, b: string, tag: string, c: string, d: string, other: string)
    requires StepIdsOk(env) && NoBar(a) && NoBar(b) && NoBar(c) && NoBar(d)
    requires env.sha(StepIdText(runId, a, b, tag)) == env.sha(StepIdText(runId, c, d, other))
    ensures tag == other
  {
    var x, y := a + ['|'] + (b + ['|'] + tag), c + ['|'] + (d + ['|'] + other);
    assert StepIdText(runId, a, b, tag) == (runId + ['|']) + x && StepIdText(runId, c, d, other) == (runId + ['|']) + y;
    SameTail(runId + ['|'], x, y);
    SplitAtSeparator('|', a, b + ['|'] + tag, c, d + ['|'] + other);
    SplitAtSeparator('|', b, tag, d, other);
  }

  /** Two steps of one journal have different ids. */
  lemma StepsHaveDifferentIds(env: Env, runId: string, es: seq<Entry>, i: nat, j: nat)
    requires StepIdsOk(env) && ClockOk(env) && KeysOnce(es) && Chronicle(env, runId, es)
    requires i < j < |es|
    ensures es[i].stepId != es[j].stepId
  {
    hide StepIdsOk;
    assert HasItsStepId(env, runId, es[i]) && HasItsStepId(env, runId, es[j]);
    var a, b :| NoBar(a) && NoBar(b) && es[i].stepId == env.sha(StepIdText(runId, a, b, Tag(env, es[i])));
    var c, d :| NoBar(c) && NoBar(d) && es[j].stepId == env.sha(StepIdText(runId, c, d, Tag(env, es[j])));
    assert !ClockLike(env, es[i].key) && !ClockLike(env, es[j].key) && es[i].at < es[j].at;
    if es[i].stepId == es[j].stepId {
      StepIdTellsTag(env, runId, a, b, Tag(env, es[i]), c, d, Tag(env, es[j]));
    }
  }

  lemma StepIdOfEntry(env: Env, runId: string, es: seq<Entry>, i: nat)
    requires StepIdsOk(env) && Chronicle(env, runId, es) && i < |es|
    ensures es[i].stepId != "" && NoColon(es[i].stepId)
  {
    assert HasItsStepId(env, runId, es[i]);
  }

  lemma NamesOnePoint(runId: string, key: string, a: string, b: string, second: string)
    requires NamesResumePoint(runId, key, a) && NoColon(a) && NoColon(b) && a != b
    ensures key != ResumeKey(runId, b, second)
  {
    var t :| key == ResumeKey(runId, a, t);
    if key == ResumeKey(runId, b, second) { ResumeKeysNameTheirStep(runId, a, t, b, second); }
  }

  lemma NamesPredecessor(env: Env, runId: string, es: seq<Entry>, i: nat)
    requires Chronicle(env, runId, es) && i < |es| && Under(runId, RESUME_TAG, es[i].key)
    ensures i > 0 && NamesResumePoint(runId, es[i].key, es[i - 1].stepId)
  {
  }

  lemma NamesOnlyItsPredecessor(env: Env, runId: string, es: seq<Entry>, i: nat, second: string)
    requires StepIdsOk(env) && ClockOk(env) && KeysOnce(es) && Chronicle(env, runId, es) && i < |es|
    requires Under(runId, RESUME_TAG, es[i].key)
    ensures es[i].key != ResumeKey(runId, es[|es| - 1].stepId, second)
  {
    hide Chronicle, StepIdsOk, ClockOk, KeysOnce, NamesResumePoint, Under;
    var n := |es| - 1;
    NamesPredecessor(env, runId, es, i);
    StepIdOfEntry(env, runId, es, i - 1);
    StepIdOfEntry(env, runId, es, n);
    StepsHaveDifferentIds(env, runId, es, i - 1, n);
    NamesOnePoint(runId, es[i].key, es[i - 1].stepId, es[n].stepId, second);
  }

  /** The resume key for the last step of a journal is not in the journal: a record with that key
      would name the step before it, which is not the last. */
  lemma ResumeKeyIsNew(env: Env, runId: string, es: seq<Entry>, second: string)
    requires StepIdsOk(env) && ClockOk(env) && KeysOnce(es) && Chronicle(env, runId, es) && es != []
    ensures !HasKey(es, ResumeKey(runId, es[|es| - 1].stepId, second))
  {
    hide Chronicle, StepIdsOk, ClockOk, KeysOnce;
    var key := ResumeKey(runId, es[|es| - 1].stepId, second);
    ResumeKeyTag(runId, es[|es| - 1].stepId, second);
    forall i | 0 <= i < |es|
      ensures es[i].key != key
    {
      if es[i].key == key { NamesOnlyItsPredecessor(env, runId, es, i, second); }
    }
  }

  // ---------- every journal of every run ----------

  ghost predicate ClockAhead(env: Env, st: State, now: int) {
    forall r, i :: 0 <= i < |Entries(env, st, r)| ==> Entries(env, st, r)[i].at < now
  }

  /** The clock has advanced, and a caller's own step has no separator in its type and status and a
      key that neither looks like a clock reading nor like a resume key.  Its key may contain the
      separator. */
  ghost predicate PlainCall(env: Env, st: State, call: Call) {
    && ClockAhead(env, st, call.now)
    && (call.op.RecordStep? ==>
          var s := call.op.step;
          NoBar(s.stepType) && NoBar(s.status) && !ClockLike(env, s.key) && !Under(call.op.runId, RESUME_TAG, s.key))
  }

  ghost predicate Chronicled(env: Env, st: State) {
    forall runId :: Chronicle(env, runId, Entries(env, st, runId))
  }

  /** What a recorded step must satisfy for the journal to stay a chronicle. */
  ghost predicate PlainStep(env: Env, runId: string, es: seq<Entry>, s: Step, now: int) {
    && (forall i :: 0 <= i < |es| ==> es[i].at < now)
    && NoBar(s.stepType) && NoBar(s.status) && !ClockLike(env, s.key) && env.Scrub(s.key) == s.key
    && (Under(runId, RESUME_TAG, s.key) ==> es != [] && NamesResumePoint(runId, s.key, es[|es| - 1].stepId))
  }

  lemma ChronicleGrows(env: Env, runId: string, es: seq<Entry>, s: Step, now: int)
    requires StepIdsOk(env) && Chronicle(env, runId, es) && PlainStep(env, runId, es, s, now)
    ensures Chronicle(env, runId, es + [NewEntry(env, runId, s, now)])
  {
    var e := NewEntry(env, runId, s, now);
    var all := es + [e];
    assert e.stepId == env.sha(StepIdText(runId, s.stepType, s.status, Tag(env, e)));
    assert HasItsStepId(env, runId, e);
    forall i | 0 <= i < |all| && Under(runId, RESUME_TAG, all[i].key)
      ensures i > 0 && NamesResumePoint(runId, all[i].key, all[i - 1].stepId)
    {
      if i == |es| { assert all[i - 1] == es[|es| - 1]; }
    }
  }

  lemma StoreWordsAreBarFree()
    ensures NoBar("run_created") && NoBar("tool_call") && NoBar("approval_checkpoint") && NoBar("approval_resolved")
    ensures NoBar("run_resumed") && NoBar("ok") && NoBar("blocked") && NoBar("pending_approval")
    ensures NoBar("approved") && NoBar("denied") && NoBar("resumed")
  {
  }

  /** The step that a plain call asks for keeps its journal a chronicle. */
  lemma PlainNote(env: Env, st: State, call: Call)
    requires StepIdsOk(env) && ClockOk(env) && Calm(env, st) && Chronicled(env, st)
    requires CallCalm(env, st, call) && PlainCall(env, st, call)
    ensures var note := NoteOf(env, st, call);
            note.Some? ==> PlainStep(env, note.value.runId, Entries(env, st, note.value.runId), note.value.step,
                                     call.now)
  {
    hide StepIdsOk, ClockOk, Calm, Chronicled, NoBar, ResumeResult, Confirmed, Strip, ParseDecision;
    StoreWordsAreBarFree();
    var op, now := call.op, call.now;
    match op
    case CreateRun(runId, _) => OrdinaryKey(env, runId, ":created", CreatedKey(runId));
    case RecordStep(_, _) =>
    case RecordToolCall(runId, use) =>
      assert ToolKey(runId, use.tool, use.argsId) == runId + ":tool:" + (use.tool + ":" + use.argsId);
      OrdinaryKey(env, runId, ":tool:", ToolKey(runId, use.tool, use.argsId));
    case CreateApproval(runId, id, _, _) =>
      ApprovalKeyTag(runId, id);
      StoreKeyIsNoClock(env, ApprovalKey(runId, id), |runId|);
    case ResolveApproval(id, _, _, _, _) => ResolvedNote(env, st, call);
    case ResumeRun(_, _) => ResumeNote(env, st, call);
  }

  lemma OrdinaryKey(env: Env, runId: string, tag: string, key: string)
    requires ClockOk(env) && Under(runId, tag, key) && |tag| > 1 && tag[0] == ':' && tag[1] != 'r'
    ensures !ClockLike(env, key) && !Under(runId, RESUME_TAG, key)
  {
    hide ClockOk;
    TagCharacter(runId, tag, 0, key);
    StoreKeyIsNoClock(env, key, |runId|);
    UnderOneTag(runId, tag, RESUME_TAG, 1, key);
  }

  lemma ResolvedNote(env: Env, st: State, call: Call)
    requires ClockOk(env) && Calm(env, st) && call.op.ResolveApproval? && ClockAhead(env, st, call.now)
    ensures var note := NoteOf(env, st, call);
            note.Some? ==> PlainStep(env, note.value.runId, Entries(env, st, note.value.runId), note.value.step,
                                     call.now)
  {
    hide ClockOk, Strip, Confirmed, Calm, NoBar, ClockLike, Records;
    StoreWordsAreBarFree();
    var id := call.op.approvalId;
    if NoteOf(env, st, call).Some? {
      var runId := st.approvals[id].runId;
      CalmIsClean(env, st);
      CleanCheckpoint(env, st.approvals, id);
      ResolvedKeyTag(runId, id);
      StoreKeyIsNoClock(env, ResolvedKey(runId, id), |runId|);
    }
  }

  lemma ResumeNote(env: Env, st: State, call: Call)
    requires StepIdsOk(env) && ClockOk(env) && Calm(env, st) && Chronicled(env, st)
    requires call.op.ResumeRun? && CallCalm(env, st, call) && ClockAhead(env, st, call.now)
    ensures var note := NoteOf(env, st, call);
            note.Some? ==> PlainStep(env, note.value.runId, Entries(env, st, note.value.runId), note.value.step,
                                     call.now)
  {
    hide StepIdsOk, ClockOk, Calm, ResumeResult, NoBar, Chronicle, ClockLike, KeysOnce, Records;
    StoreWordsAreBarFree();
    var runId, outcome := call.op.runId, ResumeResult(env, st, call.op.runId, call.loads.own);
    if outcome.Resumes? {
      var es, second := Entries(env, st, runId), env.secondText(call.now);
      ResumesListed(env, st, call);
      CalmJournal(env, st, runId);
      LastStepId(env, st, runId, call.loads.own);
      StepIdOfEntry(env, runId, es, |es| - 1);
      ResumeKeyTag(runId, outcome.fromStep, second);
      StoreKeyIsNoClock(env, ResumeKey(runId, outcome.fromStep, second), |runId|);
      assert NamesResumePoint(runId, ResumeKey(runId, outcome.fromStep, second), es[|es| - 1].stepId);
    }
  }

  lemma CallKeepsChronicles(env: Env, st: State, call: Call)
    requires EnvOk(env) && StepIdsOk(env) && ClockOk(env) && Calm(env, st) && Chronicled(env, st)
    requires CallCalm(env, st, call) && PlainCall(env, st, call)
    ensures Chronicled(env, Next(env, st, call))
  {
    hide StepIdsOk, ClockOk, CallCalm, PlainCall, Chronicle, PlainStep, Next, NoteOf, Calm;
    CalmIsSound(env, st);
    var t, note := Next(env, st, call), NoteOf(env, st, call);
    CallNotes(env, st, call);
    PlainNote(env, st, call);
    forall r ensures Chronicle(env, r, Entries(env, t, r)) {
      assert Chronicle(env, r, Entries(env, st, r));
      if note.Some? && note.value.runId == r { ChronicleGrows(env, r, Entries(env, st, r), note.value.step, call.now); }
    }
  }

  lemma CalmJournal(env: Env, st: State, runId: string)
    requires Calm(env, st) && runId in st.index
    ensures Entries(env, st, runId) != [] && KeysOnce(Entries(env, st, runId))
  {
    hide KeysOnce;
  }

  /** In a chronicle the key of a resume is new, so the resume leaves its record; and so one touch
      that can read the index is enough. */
  lemma PlainResumeIsSpent(env: Env, st: State, call: Call)
    requires StepIdsOk(env) && ClockOk(env) && EnvOk(env) && Calm(env, st) && Chronicled(env, st)
    requires GoesThrough(env, st, call) && (call.loads.step.index || call.loads.touch.index)
    ensures Spent(env, st, call)
  {
    hide StepIdsOk, ClockOk, Calm, ResumeResult, Chronicle;
    var runId := call.op.runId;
    ResumesListed(env, st, call);
    var es := Entries(env, st, runId);
    CalmJournal(env, st, runId);
    LastStepId(env, st, runId, call.loads.own);
    StepIdOfEntry(env, runId, es, |es| - 1);
    ResumeKeyIsNew(env, runId, es, env.secondText(call.now));
  }

  // ---------- every run ----------

  ghost predicate PlainCalls(env: Env, st: State, calls: seq<Call>)
    decreases |calls|
  {
    calls == []
    || (CallCalm(env, st, calls[0]) && PlainCall(env, st, calls[0])
        && PlainCalls(env, Next(env, st, calls[0]), calls[1..]))
  }

  lemma EmptyIsChronicled(env: Env)
    ensures Calm(env, EMPTY) && Chronicled(env, EMPTY)
  {
    EmptyIsCalm(env);
    assert forall r :: Entries(env, EMPTY, r) == [];
  }

  lemma {:induction false} RunKeepsChronicles(env: Env, st: State, calls: seq<Call>)
    requires EnvOk(env) && StepIdsOk(env) && ClockOk(env) && Calm(env, st) && Chronicled(env, st)
    requires PlainCalls(env, st, calls)
    ensures Calm(env, After(env, st, calls)) && Chronicled(env, After(env, st, calls))
    decreases |calls|
  {
    hide StepIdsOk, ClockOk, CallCalm, PlainCall, Calm, Chronicled, Next, EnvOk;
    if calls != [] {
      CallKeepsCalm(env, st, calls[0]);
      CallKeepsChronicles(env, st, calls[0]);
      RunKeepsChronicles(env, Next(env, st, calls[0]), calls[1..]);
    }
  }

  /** After any run of calls whose step types and statuses contain no separator and whose keys look
      like no clock reading and no resume key, no boundary is resumed twice, whatever calls follow
      the resume and whichever loads fail, as long as no call forgets the approvals and one touch of
      the resume itself can read the index. */
  lemma PlainRunsResumeOncePerBoundary(env: Env, calls: seq<Call>, call: Call)
    requires EnvOk(env) && StepIdsOk(env) && ClockOk(env) && PlainCalls(env, EMPTY, calls)
    requires var st := After(env, EMPTY, calls);
             KeysOk(env, st, call) && GoesThrough(env, st, call) && (call.loads.step.index || call.loads.touch.index)
    ensures ResumedOncePerBoundary(env, Next(env, After(env, EMPTY, calls), call), call.op.runId)
  {
    hide StepIdsOk, ClockOk, KeysOk, Calm, Chronicled, Next, EnvOk, ResumeResult, Spent, ResumedOncePerBoundary,
         PlainCalls;
    var st := After(env, EMPTY, calls);
    EmptyIsChronicled(env);
    RunKeepsChronicles(env, EMPTY, calls);
    PlainResumeIsSpent(env, st, call);
    NoBoundaryIsResumedTwiceIff(env, st, call);
  }
}
