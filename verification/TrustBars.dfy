/** Two steps with one id: the second of two resumes in one second finds its key used, and the same
    boundary is resumed once more.  A separator inside a step type makes such steps, and so does a
    key that looks like a clock reading; a key that spells out the resume key needs one step only. */
module TrustBars {
  import opened Wrappers
  import opened Redaction
  import opened HashChain
  import opened TrustStore
  import opened Text
  import opened TrustCrash
  import opened TrustViews
  import opened TrustInvariant
  import opened TrustRuns
  import opened TrustOnce
  import opened TrustSteps
  import opened TrustCalm
  import opened TrustResume

  /** The run waits for nothing and its last step is interrupted. */
  ghost predicate Interrupted(env: Env, st: State, r: string, before: seq<Entry>, e: Entry) {
    && Inv(env, st) && r in st.index && st.index[r].pending == 0
    && Entries(env, st, r) == before + [e] && e.status == "interrupted"
  }

  ghost predicate Idle(env: Env, st: State, r: string) { Inv(env, st) && r in st.index && st.index[r].pending == 0 }

  lemma PendingStays(env: Env, st: State, t: State, r: string)
    requires Inv(env, st) && Inv(env, t) && r in st.index && r in t.index && t.approvals == st.approvals
    ensures t.index[r].pending == st.index[r].pending
  {
  }

  lemma RecordedAdds(env: Env, st: State, t: State, runId: string, s: Step, now: int)
    requires Recorded(env, st, t, runId, s, now) && !Repeats(env, st, runId, s.key)
    ensures Entries(env, t, runId) == Entries(env, st, runId) + [NewEntry(env, runId, s, now)]
  {
  }

  lemma InterruptedStep(env: Env, st: State, call: Call)
    requires EnvOk(env) && call.op.RecordStep? && Idle(env, st, call.op.runId) && CallOk(env, st, call)
    requires call.op.step.status == "interrupted" && env.Scrub("interrupted") == "interrupted"
    requires !Repeats(env, st, call.op.runId, call.op.step.key) && call.loads == ALL_READ
    ensures var r, s, t := call.op.runId, call.op.step, Next(env, st, call);
            Interrupted(env, t, r, Entries(env, st, r), NewEntry(env, r, s, call.now))
  {
    hide Inv, RecordStepStates, CallOk, Repeats, Calm, Recorded;
    var r, s, t := call.op.runId, call.op.step, Next(env, st, call);
    CallKeepsInv(env, st, call);
    InvIsCalm(env, st);
    CalmIsSound(env, st);
    CalmMidway(env, st, call);
    RecordedAdds(env, st, t, r, s, call.now);
    StepIndex(env, st, r, s, call.now, READ, r);
    PendingStays(env, st, t, r);
  }

  lemma InterruptedResumes(env: Env, st: State, r: string, before: seq<Entry>, e: Entry)
    requires EnvOk(env) && Interrupted(env, st, r, before, e)
    ensures ResumeResult(env, st, r) == Resumes(if e.stepId == "" then "start" else e.stepId)
  {
    hide Inv, ResumeResult, EnvOk;
    var es := Entries(env, st, r);
    assert es[|es| - 1] == e;
    ResumesIff(env, st, r);
  }

  lemma ResumeOfInterrupted(env: Env, st: State, call: Call, before: seq<Entry>, e: Entry)
    requires EnvOk(env) && call.op.ResumeRun? && CallOk(env, st, call) && Interrupted(env, st, call.op.runId, before, e)
    requires GoesThrough(env, st, call) && call.loads == ALL_READ
    ensures var r, s := call.op.runId, ResumeStepOf(env, st, call); var t := Next(env, st, call);
            && Idle(env, t, r) && Repeats(env, t, r, s.key)
            && (Repeats(env, st, r, s.key) ==> !Spent(env, st, call))
            && (!Repeats(env, st, r, s.key) ==> Entries(env, t, r) == before + [e] + [NewEntry(env, r, s, call.now)])
  {
    hide Inv, ResumeResult, EnvOk, Next;
    var r, s, t := call.op.runId, ResumeStepOf(env, st, call), Next(env, st, call);
    CallKeepsInv(env, st, call);
    InvIsCalm(env, st);
    ResumeViews(env, st, call);
    PendingStays(env, st, t, r);
    var es := Entries(env, st, r);
    assert es[|es| - 1] == e;
    HasKeyGrows(es, NewEntry(env, r, s, call.now), s.key);
  }

  // ---------- two steps with one id ----------

  /** The key of a resume from the step, in a given second. */
  function KeyFrom(env: Env, r: string, s: Step, now: int, second: string): string {
    var id := env.Scrub(StepId(env, r, s, now));
    ResumeKey(r, if id == "" then "start" else id, second)
  }

  /** A caller may record the step now: it is interrupted, and its key has not been used and is none
      that the store reserves for approvals. */
  predicate MayInterrupt(env: Env, st: State, r: string, s: Step) {
    && s.status == "interrupted" && KeyKept(env, s.key) && !Repeats(env, st, r, s.key)
    && !Under(r, APPROVAL_TAG, s.key) && !Under(r, RESOLVED_TAG, s.key)
  }

  /** Two different steps of one id, with a run that waits for nothing. */
  ghost predicate TwinSetting(env: Env, st: State, r: string, one: Step, t1: int, two: Step, t3: int, second: string) {
    && EnvOk(env) && Idle(env, st, r) && env.Scrub("interrupted") == "interrupted"
    && MayInterrupt(env, st, r, one) && MayInterrupt(env, st, r, two) && one.key != two.key
    && StepId(env, r, one, t1) == StepId(env, r, two, t3)
    && var key := KeyFrom(env, r, one, t1, second);
       KeyKept(env, key) && !Repeats(env, st, r, key) && key != one.key && key != two.key
  }

  function TwinRun(r: string, refs: Refs, one: Step, t1: int, t2: int, two: Step, t3: int): seq<Call> {
    [Call(RecordStep(r, one), t1), Call(ResumeRun(r, refs), t2), Call(RecordStep(r, two), t3)]
  }

  lemma AfterThree(env: Env, st: State, a: Call, b: Call, c: Call)
    ensures After(env, st, [a, b, c]) == Next(env, Next(env, Next(env, st, a), b), c)
    ensures CallsOk(env, st, [a, b, c]) <==>
              CallOk(env, st, a) && CallOk(env, Next(env, st, a), b) && CallOk(env, Next(env, Next(env, st, a), b), c)
  {
    hide Next, CallOk;
    var u := Next(env, st, a);
    assert [a, b, c][1..] == [b, c] && [b, c][1..] == [c] && [c][1..] == [];
    assert After(env, Next(env, u, b), [c]) == Next(env, Next(env, u, b), c);
    assert CallsOk(env, Next(env, u, b), [c]) <==> CallOk(env, Next(env, u, b), c);
    assert After(env, u, [b, c]) == After(env, Next(env, u, b), [c]);
    assert CallsOk(env, u, [b, c]) <==> CallOk(env, u, b) && CallsOk(env, Next(env, u, b), [c]);
  }

  lemma ResumesWithKey(env: Env, st: State, call: Call, s: Step, now: int)
    requires GoesThrough(env, st, call) && call.loads == ALL_READ
    requires var id := env.Scrub(StepId(env, call.op.runId, s, now));
             ResumeResult(env, st, call.op.runId).fromStep == if id == "" then "start" else id
    ensures ResumeStepOf(env, st, call).key == KeyFrom(env, call.op.runId, s, now, env.secondText(call.now))
  {
  }

  /** Two keys that are used by nobody are still unused after a step with a third. */
  lemma OtherKeys(before: seq<Entry>, e: Entry, key: string)
    requires !HasKey(before, key) && e.key != key
    ensures !HasKey(before + [e], key)
  {
    HasKeyGrows(before, e, key);
  }

  /** The first interruption and its resume, which takes the key. */
  lemma TwinFirstHalf(env: Env, st: State, r: string, refs: Refs, one: Step, t1: int, t2: int, two: Step, t3: int)
    requires TwinSetting(env, st, r, one, t1, two, t3, env.secondText(t2))
    ensures var a, b := Call(RecordStep(r, one), t1), Call(ResumeRun(r, refs), t2);
            var u := Next(env, Next(env, st, a), b);
            && CallOk(env, st, a) && CallOk(env, Next(env, st, a), b) && Idle(env, u, r)
            && Repeats(env, u, r, KeyFrom(env, r, one, t1, env.secondText(t2)))
            && MayInterrupt(env, u, r, two)
  {
    hide Inv, Next, ResumeResult, EnvOk, KeyFrom, StepId, HasKey;
    var a, b := Call(RecordStep(r, one), t1), Call(ResumeRun(r, refs), t2);
    var e, before := NewEntry(env, r, one, t1), Entries(env, st, r);
    var key := KeyFrom(env, r, one, t1, env.secondText(t2));
    var u := Next(env, st, a);
    KeyFromTag(env, r, one, t1, env.secondText(t2));
    InterruptedStep(env, st, a);
    InterruptedResumes(env, u, r, before, e);
    ResumesWithKey(env, u, b, one, t1);
    OtherKeys(before, e, key);
    ResumeOfInterrupted(env, u, b, before, e);
    if two.key != "" {
      OtherKeys(before, e, two.key);
      OtherKeys(before + [e], NewEntry(env, r, ResumeStepOf(env, u, b), t2), two.key);
    }
  }

  lemma KeyFromTag(env: Env, r: string, s: Step, now: int, second: string)
    ensures KeyFrom(env, r, s, now, second) != "" && Under(r, RESUME_TAG, KeyFrom(env, r, s, now, second))
    ensures var key := KeyFrom(env, r, s, now, second); !Under(r, APPROVAL_TAG, key) && !Under(r, RESOLVED_TAG, key)
  {
    var id := env.Scrub(StepId(env, r, s, now));
    ResumeKeyTag(r, if id == "" then "start" else id, second);
  }

  /** An interruption whose resume key has been used: the resume records nothing. */
  lemma UsedKeyHalf(env: Env, st: State, r: string, refs: Refs, two: Step, t3: int, t4: int)
    requires EnvOk(env) && Idle(env, st, r) && env.Scrub("interrupted") == "interrupted"
    requires MayInterrupt(env, st, r, two)
    requires var key := KeyFrom(env, r, two, t3, env.secondText(t4)); KeyKept(env, key) && Repeats(env, st, r, key)
    ensures var c, last := Call(RecordStep(r, two), t3), Call(ResumeRun(r, refs), t4);
            var u := Next(env, st, c);
            && CallOk(env, st, c) && CallOk(env, u, last) && Inv(env, u)
            && GoesThrough(env, u, last) && !Spent(env, u, last)
  {
    hide Inv, Next, ResumeResult, EnvOk, KeyFrom, StepId, HasKey;
    var c, last := Call(RecordStep(r, two), t3), Call(ResumeRun(r, refs), t4);
    var e, before := NewEntry(env, r, two, t3), Entries(env, st, r);
    var key := KeyFrom(env, r, two, t3, env.secondText(t4));
    var u := Next(env, st, c);
    InterruptedStep(env, st, c);
    InterruptedResumes(env, u, r, before, e);
    ResumesWithKey(env, u, last, two, t3);
    HasKeyGrows(before, e, key);
    ResumeOfInterrupted(env, u, last, before, e);
  }

  lemma SameIdSameKey(env: Env, r: string, one: Step, t1: int, two: Step, t3: int, second: string)
    requires StepId(env, r, one, t1) == StepId(env, r, two, t3)
    ensures KeyFrom(env, r, one, t1, second) == KeyFrom(env, r, two, t3, second)
  {
  }

  /** From every reached state in which the run is listed, waits for nothing and has not used the
      keys: two interruptions of one id, each resumed, the two resumes in one second.  The second
      resume can be repeated at once from the same boundary. */
  lemma TwinsResumeTwice(env: Env, st: State, r: string, refs: Refs, one: Step, t1: int, t2: int, two: Step, t3: int,
                         t4: int)
    requires TwinSetting(env, st, r, one, t1, two, t3, env.secondText(t2)) && env.secondText(t2) == env.secondText(t4)
    ensures var calls, last := TwinRun(r, refs, one, t1, t2, two, t3), Call(ResumeRun(r, refs), t4);
            var u := After(env, st, calls);
            && CallsOk(env, st, calls) && CallOk(env, u, last) && GoesThrough(env, u, last)
            && !ResumedOncePerBoundary(env, Next(env, u, last), r)
  {
    hide Inv, Next, ResumeResult, CallOk, EnvOk, KeyFrom, Repeats, Spent, Idle, ResumedOncePerBoundary, Calm, KeysOk,
         MayInterrupt, StepId;
    TwinFirstHalf(env, st, r, refs, one, t1, t2, two, t3);
    var a, b := Call(RecordStep(r, one), t1), Call(ResumeRun(r, refs), t2);
    var c, last := Call(RecordStep(r, two), t3), Call(ResumeRun(r, refs), t4);
    AfterThree(env, st, a, b, c);
    SameIdSameKey(env, r, one, t1, two, t3, env.secondText(t4));
    UsedKeyHalf(env, Next(env, Next(env, st, a), b), r, refs, two, t3, t4);
    InvIsCalm(env, After(env, st, [a, b, c]));
    OkIsCalm(env, After(env, st, [a, b, c]), last);
    NoBoundaryIsResumedTwiceIff(env, After(env, st, [a, b, c]), last);
  }

  // ---------- a separator in a step type ----------

  function BarredStep(refs: Refs): Step { Step("t|interrupted", "interrupted", refs, "k", false, 0.0, "") }
  function OtherStep(refs: Refs): Step { Step("t", "interrupted", refs, "interrupted|k", false, 0.0, "") }

  lemma BarredStepsShareAnId(env: Env, runId: string, refs: Refs, now: int, later: int)
    ensures StepId(env, runId, BarredStep(refs), now) == StepId(env, runId, OtherStep(refs), later)
  {
    var t, i, k := "t", "interrupted", "k";
    SeparatorMoves('|', t, i, i + ['|'] + k);
    assert t + ['|'] + i == "t|interrupted" && i + ['|'] + k == "interrupted|k";
    assert ("t|interrupted" + ['|']) + ("interrupted" + ['|'] + "k")
        == "t|interrupted" + (['|'] + "interrupted" + ['|'] + "k");
  }

  lemma ColonFree(r: string, key: string)
    requires ':' !in key
    ensures !Under(r, APPROVAL_TAG, key) && !Under(r, RESOLVED_TAG, key) && !Under(r, RESUME_TAG, key)
  {
    forall tag | tag in {APPROVAL_TAG, RESOLVED_TAG, RESUME_TAG} ensures !Under(r, tag, key) {
      if Under(r, tag, key) { TagCharacter(r, tag, 0, key); }
    }
  }

  ghost predicate BarredSetting(env: Env, st: State, r: string, refs: Refs, second: string) {
    && EnvOk(env) && Idle(env, st, r) && env.Scrub("interrupted") == "interrupted"
    && KeyKept(env, "k") && KeyKept(env, "interrupted|k")
    && !Repeats(env, st, r, "k") && !Repeats(env, st, r, "interrupted|k")
    && var key := KeyFrom(env, r, BarredStep(refs), 0, second); KeyKept(env, key) && !Repeats(env, st, r, key)
  }

  /** Two interruptions, the first with a separator in its step type. */
  lemma BarsResumeTwice(env: Env, st: State, r: string, refs: Refs, t1: int, t2: int, t3: int, t4: int)
    requires BarredSetting(env, st, r, refs, env.secondText(t2)) && env.secondText(t2) == env.secondText(t4)
    ensures var calls := TwinRun(r, refs, BarredStep(refs), t1, t2, OtherStep(refs), t3);
            var u, last := After(env, st, calls), Call(ResumeRun(r, refs), t4);
            && CallsOk(env, st, calls) && CallOk(env, u, last) && GoesThrough(env, u, last)
            && !ResumedOncePerBoundary(env, Next(env, u, last), r)
  {
    hide Idle, Next, ResumeResult, CallOk, EnvOk, Repeats, ResumedOncePerBoundary, StepId;
    var one, two, second := BarredStep(refs), OtherStep(refs), env.secondText(t2);
    BarredStepsShareAnId(env, r, refs, t1, t3);
    BarredStepsShareAnId(env, r, refs, 0, t3);
    SameIdSameKey(env, r, one, t1, one, 0, second);
    KeyFromTag(env, r, one, t1, second);
    ColonFree(r, "k");
    ColonFree(r, "interrupted|k");
    TwinsResumeTwice(env, st, r, refs, one, t1, t2, two, t3, t4);
  }

  // ---------- keys that look like what the store makes itself ----------

  /** A keyless interruption at `t1`, and one whose key is the text of that clock reading. */
  lemma ClockKeyResumesTwice(env: Env, st: State, r: string, refs: Refs, t1: int, t2: int, t3: int, t4: int)
    requires EnvOk(env) && Idle(env, st, r) && env.Scrub("interrupted") == "interrupted"
    requires var key := env.clockText(t1); key != "" && ':' !in key && KeyKept(env, key) && !Repeats(env, st, r, key)
    requires var one := Step("t", "interrupted", refs, "", false, 0.0, "");
             var key := KeyFrom(env, r, one, t1, env.secondText(t2)); KeyKept(env, key) && !Repeats(env, st, r, key)
    requires env.secondText(t2) == env.secondText(t4)
    ensures var one := Step("t", "interrupted", refs, "", false, 0.0, "");
            var calls := TwinRun(r, refs, one, t1, t2, one.(key := env.clockText(t1)), t3);
            var u, last := After(env, st, calls), Call(ResumeRun(r, refs), t4);
            && CallsOk(env, st, calls) && CallOk(env, u, last) && GoesThrough(env, u, last)
            && !ResumedOncePerBoundary(env, Next(env, u, last), r)
  {
    hide Idle, Next, ResumeResult, CallOk, ResumedOncePerBoundary, KeyFrom, HasKey;
    var one := Step("t", "interrupted", refs, "", false, 0.0, "");
    KeyFromTag(env, r, one, t1, env.secondText(t2));
    ColonFree(r, "");
    ColonFree(r, env.clockText(t1));
    TwinsResumeTwice(env, st, r, refs, one, t1, t2, one.(key := env.clockText(t1)), t3, t4);
  }

  /** One interruption whose resume key a caller has used for a step of its own. */
  lemma SpelledKeyResumesTwice(env: Env, st: State, r: string, refs: Refs, s: Step, t1: int, t2: int, t3: int)
    requires EnvOk(env) && Idle(env, st, r) && env.Scrub("interrupted") == "interrupted" && MayInterrupt(env, st, r, s)
    requires var key := KeyFrom(env, r, s, t2, env.secondText(t3));
             KeyKept(env, key) && !Repeats(env, st, r, key) && key != s.key
    ensures var spelled := s.(key := KeyFrom(env, r, s, t2, env.secondText(t3)));
            var a, b := Call(RecordStep(r, spelled), t1), Call(RecordStep(r, s), t2);
            var last := Call(ResumeRun(r, refs), t3);
            var u := Next(env, Next(env, st, a), b);
            && CallOk(env, st, a) && CallOk(env, Next(env, st, a), b) && CallOk(env, u, last)
            && GoesThrough(env, u, last)
            && !ResumedOncePerBoundary(env, Next(env, u, last), r)
  {
    hide Inv, Next, ResumeResult, EnvOk, KeyFrom, StepId, HasKey, Spent, ResumedOncePerBoundary, Calm;
    var key := KeyFrom(env, r, s, t2, env.secondText(t3));
    var spelled := s.(key := key);
    var a, b, last := Call(RecordStep(r, spelled), t1), Call(RecordStep(r, s), t2), Call(ResumeRun(r, refs), t3);
    var e, before, u := NewEntry(env, r, spelled, t1), Entries(env, st, r), Next(env, st, a);
    KeyFromTag(env, r, s, t2, env.secondText(t3));
    InterruptedStep(env, st, a);
    HasKeyGrows(before, e, key);
    if s.key != "" { OtherKeys(before, e, s.key); }
    UsedKeyHalf(env, u, r, refs, s, t2, t3);
    InvIsCalm(env, Next(env, u, b));
    OkIsCalm(env, Next(env, u, b), last);
    NoBoundaryIsResumedTwiceIff(env, Next(env, u, b), last);
  }
}
