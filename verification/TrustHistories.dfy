/** Histories in which any load may fail and any call may be cut short after any of its writes: what
    they keep, and exactly which failed loads lose something. */
module TrustHistories {
  import opened Wrappers
  import opened Redaction
  import opened HashChain
  import opened TrustStore
  import opened TrustCrash
  import opened TrustViews
  import opened TrustInvariant
  import opened TrustSteps
  import opened TrustCalm

  lemma SurvivorIsAState(env: Env, st: State, e: Event)
    ensures Survives(env, st, e) == st || Survives(env, st, e) in States(env, st, e.call)
  {
    hide States;
  }

  // ---------- records ----------

  /** Records already in a journal stay where they are, whatever fails and wherever a call stops. */
  lemma {:induction false} RecordsStay(env: Env, st: State, events: seq<Event>, r: string)
    requires env.codec.KeepsDigests() && CrashSafe(env, st)
    ensures Records(env, st, r) <= Records(env, AfterCrashes(env, st, events), r)
    decreases |events|
  {
    hide States, CrashSafe, Records, Survives;
    if events != [] {
      var e, next := events[0], Survives(env, st, events[0]);
      SurvivorIsAState(env, st, e);
      StatesGrow(env, st, e.call);
      CallSafe(env, st, e.call);
      GrowsIsReflexive(env, st);
      RecordsStay(env, next, events[1..], r);
    }
  }

  // ---------- keys ----------

  /** The scrubber leaves the key of every step alone that a call asks for. */
  ghost predicate KeysKept(env: Env, st: State, events: seq<Event>)
    decreases |events|
  {
    events == []
    || ((var note := NoteOf(env, st, events[0].call); note.Some? ==> KeyKept(env, note.value.step.key))
        && KeysKept(env, Survives(env, st, events[0]), events[1..]))
  }

  lemma MidwayKeepsJournals(env: Env, st: State, t: State, call: Call)
    requires Journals(env, st) && Midway(env, st, t, call)
    requires var note := NoteOf(env, st, call); note.Some? ==> KeyKept(env, note.value.step.key)
    ensures Journals(env, t)
  {
    hide Sound, NoteOf, Entries, Recorded;
    var note := NoteOf(env, st, call);
    if Noted(env, st, t, None, call.now) || note.None? {
      NotedNothing(env, st, t, call.now);
      forall r ensures KeysOnce(Entries(env, t, r)) { assert KeysOnce(Entries(env, st, r)); }
    } else {
      RecordedKeepsJournals(env, st, t, note.value.runId, note.value.step, call.now);
    }
  }

  lemma SurvivorIsMidway(env: Env, st: State, e: Event)
    requires FieldsKept(env) && Sound(env, st)
    ensures Midway(env, st, Survives(env, st, e), e.call)
  {
    hide States, Sound, Survives, Arrived, ApprovalsAfter;
    SurvivorIsAState(env, st, e);
    StatesMidway(env, st, e.call);
    NothingDone(env, st, e.call);
  }

  lemma NothingDone(env: Env, st: State, call: Call)
    requires Sound(env, st)
    ensures Midway(env, st, st, call)
  {
  }

  lemma MidwayIsSound(env: Env, st: State, t: State, call: Call)
    requires Midway(env, st, t, call)
    ensures Sound(env, t)
  {
  }

  lemma {:induction false} KeysOnceInEveryHistory(env: Env, st: State, events: seq<Event>)
    requires FieldsKept(env) && Sound(env, st) && Journals(env, st) && KeysKept(env, st, events)
    ensures Journals(env, AfterCrashes(env, st, events))
    decreases |events|
  {
    hide States, Sound, Survives, Midway, Journals, NoteOf;
    if events != [] {
      var next := Survives(env, st, events[0]);
      SurvivorIsMidway(env, st, events[0]);
      MidwayKeepsJournals(env, st, next, events[0].call);
      MidwayIsSound(env, st, next, events[0].call);
      KeysOnceInEveryHistory(env, next, events[1..]);
    }
  }

  /** In every history from the empty store no two records of one journal share a non-empty key. */
  lemma KeysAreUsedOnceInCrashes(env: Env, events: seq<Event>, runId: string)
    requires FieldsKept(env) && KeysKept(env, EMPTY, events)
    ensures KeysOnce(Entries(env, AfterCrashes(env, EMPTY, events), runId))
  {
    hide KeysOnce;
    assert forall r :: Entries(env, EMPTY, r) == [];
    assert Journals(env, EMPTY) by { forall r ensures KeysOnce(Entries(env, EMPTY, r)) { NoKeys(); } }
    KeysOnceInEveryHistory(env, EMPTY, events);
    assert Journals(env, AfterCrashes(env, EMPTY, events));
  }

  lemma NoKeys()
    ensures KeysOnce([])
  {
  }

  // ---------- approvals ----------

  ghost predicate EventsCalm(env: Env, st: State, events: seq<Event>)
    decreases |events|
  {
    events == [] || (CallCalm(env, st, events[0].call) && EventsCalm(env, Survives(env, st, events[0]), events[1..]))
  }

  lemma KeepsBoth(a: map<string, Checkpoint>, b: map<string, Checkpoint>, c: map<string, Checkpoint>)
    requires KeepsApprovals(a, b) && KeepsApprovals(b, c)
    ensures KeepsApprovals(a, c)
  {
  }

  /** As long as no call forgets the approvals: every checkpoint stays on file, a resolved one as it
      is, and what the journals say of approvals is backed by the file. */
  lemma {:induction false} HistoryKeepsApprovals(env: Env, st: State, events: seq<Event>)
    requires EnvOk(env) && Backed(env, st) && EventsCalm(env, st, events)
    ensures var t := AfterCrashes(env, st, events); Backed(env, t) && KeepsApprovals(st.approvals, t.approvals)
    decreases |events|
  {
    hide States, Survives, Midway, Backed, KeysOk, KeepsApprovals, ForgetsApprovals;
    if events == [] {
      KeepsItself(st.approvals);
    } else {
      var next := Survives(env, st, events[0]);
      BackedIsSound(env, st);
      SurvivorIsMidway(env, st, events[0]);
      MidwayKeepsBacked(env, st, next, events[0].call);
      HistoryKeepsApprovals(env, next, events[1..]);
      KeepsBoth(st.approvals, next.approvals, AfterCrashes(env, next, events[1..]).approvals);
    }
  }

  /** In every such history from the empty store: a resolution record in a journal has its checkpoint
      resolved with the decision it carries, an approval record its checkpoint on file, and keys are
      used once.  Only the converse, a record for every resolved checkpoint, is lost in a crash. */
  lemma ResolutionsAreBacked(env: Env, events: seq<Event>, r: string, id: string)
    requires EnvOk(env) && EventsCalm(env, EMPTY, events)
    ensures var t := AfterCrashes(env, EMPTY, events); var es := Entries(env, t, r);
            && KeysOnce(es)
            && (HasKey(es, ApprovalKey(r, id)) || HasKey(es, ResolvedKey(r, id)) ==>
                  id in t.approvals && t.approvals[id].runId == r)
            && (HasKey(es, ResolvedKey(r, id)) ==>
                  t.approvals[id].review.Resolved?
                  && KeyHasStatus(es, ResolvedKey(r, id), t.approvals[id].review.decision.Text()))
  {
    hide Calm, KeysOnce, Entries;
    EmptyIsCalm(env);
    CalmIsBacked(env, EMPTY);
    HistoryKeepsApprovals(env, EMPTY, events);
    var t := AfterCrashes(env, EMPTY, events);
    assert KeysOnce(Entries(env, t, r));
    if HasKey(Entries(env, t, r), ResolvedKey(r, id)) { assert BackedOn(env, t, id); }
  }

  lemma CalmIsBacked(env: Env, st: State)
    requires Calm(env, st)
    ensures Backed(env, st)
  {
  }

  // ---------- what failed loads lose ----------

  /** A call that forgets the approvals leaves a journal that speaks of a checkpoint which is on file
      no more. */
  lemma ForgottenCheckpoint(env: Env, st: State, call: Call, r: string, id: string)
    requires FieldsKept(env) && Sound(env, st) && ForgetsApprovals(st, call) && call.op.approvalId != id
    requires HasKey(Entries(env, st, r), ApprovalKey(r, id))
    ensures !Known(env, Next(env, st, call))
  {
    hide Sound, States, Next, NoteOf, Entries;
    var t := Next(env, st, call);
    StatesMidway(env, st, call);
    NotedGrows(env, st, call, r);
    NextApprovals(env, st, call);
    assert id !in t.approvals;
    var i :| 0 <= i < |Entries(env, st, r)| && Entries(env, st, r)[i].key == ApprovalKey(r, id);
    assert Entries(env, t, r)[i].key == ApprovalKey(r, id);
  }

  /** A run stays listed through a call exactly unless another is created by a call that could not
      read the index. */
  lemma RunKeptIff(env: Env, st: State, call: Call, r: string)
    requires FieldsKept(env) && Sound(env, st) && IndexClean(env, st) && r in st.index
    ensures r in Next(env, st, call).index
            <==> !(call.op.CreateRun? && !call.loads.own.index && call.op.runId != r)
  {
    hide Sound, Next, IndexClean;
    NextIndex(env, st, call, r);
  }

  /** A step count that was right stays right exactly when the touch of the new record can read the
      index; otherwise it falls behind, and never ahead. */
  lemma CountKeptIff(env: Env, st: State, call: Call)
    requires FieldsKept(env) && Sound(env, st) && call.op.RecordStep? && call.op.runId in st.index
    requires st.index[call.op.runId].stepCount == |Entries(env, st, call.op.runId)|
    requires !Repeats(env, st, call.op.runId, call.op.step.key)
    ensures var r, t := call.op.runId, Next(env, st, call);
            && r in t.index && t.index[r].stepCount <= |Entries(env, t, r)|
            && (t.index[r].stepCount == |Entries(env, t, r)| <==> call.loads.step.index)
  {
    hide Sound, RecordStepStates, Entries, PendingOf;
    RecordStepEffect(env, st, call.op.runId, call.op.step, call.now, call.loads.step);
  }
}
