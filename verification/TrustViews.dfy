/** The three views of the trust store -- run index, approvals, journals -- agree in every state
    that completed operations reach. */
module TrustViews {
  import opened Wrappers
  import opened Redaction
  import opened HashChain
  import opened TrustStore
  import opened TrustCrash

  // ---------- what the store may assume of its surroundings ----------

  /** No secret marker hides a field the store reads back. */
  ghost predicate FieldsKept(env: Env) {
    && env.codec.KeepsDigests()
    && !env.codec.redactor.marked(STEP_ID) && !env.codec.redactor.marked(STATUS)
    && !env.codec.redactor.marked(KEY) && !env.codec.redactor.marked(TIMESTAMP)
  }

  /** The scrubber leaves the store's own status words alone. */
  predicate WordsKept(env: Env) {
    && env.Scrub("running") == "running" && env.Scrub("ok") == "ok" && env.Scrub("resumed") == "resumed"
    && env.Scrub("approved") == "approved" && env.Scrub("denied") == "denied"
    && env.Scrub("pending_approval") == "pending_approval" && env.Scrub("resumable") == "resumable"
  }

  ghost predicate EnvOk(env: Env) { FieldsKept(env) && WordsKept(env) }

  /** The real secret markers hide none of the fields the store reads back, nor the hash fields. */
  lemma StoreFieldsAreNotSecret(key: string)
    requires key in {STEP_ID, STATUS, KEY, TIMESTAMP, PREVIOUS, OWN}
    ensures !SecretKey(key)
  {
    if key == STEP_ID || key == KEY {
      assert Lacks(STEP_ID, {'r', 'a'}) && NeverAdjacent(STEP_ID, 't', 'o');
      KeyFieldLacks();
      NotSecretWithoutR(key, 'a');
    } else if key == STATUS || key == TIMESTAMP {
      NotSecretWithoutR(key, 'k');
    } else if key == PREVIOUS {
      NotSecretWithoutT(key, 'k', 'w', 'c');
    } else {
      NotSecretWithoutT(key, 'p', 'p', 'n');
    }
  }

  lemma KeyFieldLacks()
    ensures Lacks(KEY, {'r', 'a'}) && NeverAdjacent(KEY, 't', 'o')
  {
  }

  // ---------- the journal as the invariants see it ----------

  datatype Entry = Entry(stepId: string, status: string, key: string, at: int)

  function EntryOf(env: Env, r: Record): Entry {
    Entry(env.codec.Text(Field(r, STEP_ID)), env.codec.Text(Field(r, STATUS)), env.codec.Text(Field(r, KEY)),
          if Field(r, TIMESTAMP).Num? then Field(r, TIMESTAMP).n.Floor else 0)
  }

  function EntriesOf(env: Env, rs: seq<Record>): seq<Entry> {
    seq(|rs|, i requires 0 <= i < |rs| => EntryOf(env, rs[i]))
  }

  function Entries(env: Env, st: State, runId: string): (es: seq<Entry>)
    ensures |es| == |Records(env, st, runId)|
  {
    EntriesOf(env, Records(env, st, runId))
  }

  lemma EntriesGrow(env: Env, rs: seq<Record>, r: Record)
    ensures EntriesOf(env, rs + [r]) == EntriesOf(env, rs) + [EntryOf(env, r)]
  {
  }

  predicate TypedRecord(r: Record) {
    Field(r, STEP_ID).Str? && Field(r, STATUS).Str? && Field(r, KEY).Str? && Field(r, TIMESTAMP).Num?
  }

  ghost predicate Typed(env: Env, st: State) {
    forall runId :: AllTyped(Records(env, st, runId))
  }

  predicate AllTyped(rs: seq<Record>) {
    forall i :: 0 <= i < |rs| ==> TypedRecord(rs[i])
  }

  predicate HasKey(es: seq<Entry>, key: string) {
    exists i :: 0 <= i < |es| && es[i].key == key
  }

  function NewEntry(env: Env, runId: string, s: Step, now: int): Entry {
    Entry(env.Scrub(StepId(env, runId, s, now)), env.Scrub(s.status), env.Scrub(s.key), now)
  }

  predicate Repeats(env: Env, st: State, runId: string, key: string) {
    key != "" && HasKey(Entries(env, st, runId), key)
  }

  lemma RepeatsIsAlreadyRecorded(env: Env, st: State, runId: string, key: string)
    requires Typed(env, st)
    ensures AlreadyRecorded(env, st, runId, key) <==> Repeats(env, st, runId, key)
  {
    var rs := Records(env, st, runId);
    assert AllTyped(rs);
    forall i | 0 <= i < |rs|
      ensures Field(rs[i], KEY) == Str(key) <==> Entries(env, st, runId)[i].key == key
    {
      assert TypedRecord(rs[i]);
    }
  }

  lemma NewRecordFields(env: Env, records: seq<Record>, runId: string, s: Step, now: int)
    requires FieldsKept(env)
    ensures var r := WithHash(records, StepFields(env, runId, s, now), env.codec);
            TypedRecord(r) && EntryOf(env, r) == NewEntry(env, runId, s, now)
  {
    RawFieldValues(env, runId, s, now);
    var raw := RawFields(env, runId, s, now);
    RedactedField(raw, STEP_ID, env.codec.redactor);
    RedactedField(raw, STATUS, env.codec.redactor);
    RedactedField(raw, KEY, env.codec.redactor);
    RedactedField(raw, TIMESTAMP, env.codec.redactor);
  }

  lemma RawFieldValues(env: Env, runId: string, s: Step, now: int)
    ensures var raw := RawFields(env, runId, s, now);
            && STEP_ID in raw && raw[STEP_ID] == Str(StepId(env, runId, s, now))
            && STATUS in raw && raw[STATUS] == Str(s.status)
            && KEY in raw && raw[KEY] == Str(s.key)
            && TIMESTAMP in raw && raw[TIMESTAMP] == Num(now as real)
  {
  }

  lemma RedactedField(raw: Record, key: string, r: Redactor)
    requires key in raw && !r.marked(key) && !raw[key].Obj? && !raw[key].Arr?
    ensures var out := Redact(Obj(raw), r).fields;
            key in out && out[key] == if raw[key].Str? then Str(r.scrub(raw[key].s)) else raw[key]
  {
    assert Redact(raw[key], r, 1) == if raw[key].Str? then Str(r.scrub(raw[key].s)) else raw[key];
  }

  // ---------- the effect of recording a step ----------

  /** Journals of other runs are untouched; this run's gains one entry, or none when the key is
      already in use. */
  ghost predicate Recorded(env: Env, st: State, t: State, runId: string, s: Step, now: int) {
    && (forall other :: other != runId ==> Entries(env, t, other) == Entries(env, st, other))
    && Entries(env, t, runId) ==
       (if Repeats(env, st, runId, s.key) then Entries(env, st, runId)
        else Entries(env, st, runId) + [NewEntry(env, runId, s, now)])
  }

  ghost predicate Sound(env: Env, st: State) { CrashSafe(env, st) && Typed(env, st) }

  lemma SameJournals(env: Env, st: State, t: State)
    requires t.journals == st.journals
    ensures forall r :: Records(env, t, r) == Records(env, st, r)
    ensures forall r :: Entries(env, t, r) == Entries(env, st, r)
  {
    forall r ensures Records(env, t, r) == Records(env, st, r) { assert t.Lines(r) == st.Lines(r); }
  }

  lemma AppendStepEntries(env: Env, st: State, runId: string, s: Step, now: int)
    requires FieldsKept(env) && Sound(env, st)
    ensures var t := AppendStep(env, st, runId, s, now);
            && Sound(env, t)
            && Entries(env, t, runId) == Entries(env, st, runId) + [NewEntry(env, runId, s, now)]
            && forall other :: other != runId ==> Entries(env, t, other) == Entries(env, st, other)
  {
    var r := WithHash(Records(env, st, runId), StepFields(env, runId, s, now), env.codec);
    var t := AppendStep(env, st, runId, s, now);
    AppendStepRecords(env, st, runId, s, now);
    NewRecordFields(env, Records(env, st, runId), runId, s, now);
    SoundAppend(env, st, t, runId, r);
  }

  lemma SoundAppend(env: Env, st: State, t: State, runId: string, r: Record)
    requires Typed(env, st) && TypedRecord(r)
    requires Records(env, t, runId) == Records(env, st, runId) + [r]
    requires forall other :: other != runId ==> Records(env, t, other) == Records(env, st, other)
    ensures Typed(env, t)
    ensures Entries(env, t, runId) == Entries(env, st, runId) + [EntryOf(env, r)]
    ensures forall other :: other != runId ==> Entries(env, t, other) == Entries(env, st, other)
  {
    EntriesGrow(env, Records(env, st, runId), r);
    forall other
      ensures AllTyped(Records(env, t, other))
    {
      assert AllTyped(Records(env, st, other));
    }
  }

  /** The index after a step is appended: the run's status, count and pending count move. */
  function TouchedIndex(env: Env, st: State, runId: string, status: string, steps: nat, load: Load := READ)
      : map<string, Run>
  {
    if !load.index || runId !in st.index then st.index
    else
      var run := st.index[runId];
      WriteIndex(env, st.index[runId :=
        Run(if status != "" then status else run.status, run.stepCount + steps,
            |PendingOf(env, Loaded(st.approvals, load.approvals), runId)|)])
  }

  lemma TouchEffect(env: Env, st: State, runId: string, status: string, increment: bool, load: Load := READ)
    ensures Last(st, TouchStates(env, st, runId, status, increment, load))
            == st.(index := TouchedIndex(env, st, runId, status, if increment then 1 else 0, load))
  {
  }

  lemma RecordStepDisk(env: Env, st: State, runId: string, s: Step, now: int, load: Load := READ)
    requires !AlreadyRecorded(env, st, runId, s.key)
    ensures Last(st, RecordStepStates(env, st, runId, s, now, load))
            == AppendStep(env, st, runId, s, now).(index := TouchedIndex(env, st, runId, s.status, 1, load))
  {
    var appended := AppendStep(env, st, runId, s, now);
    TouchEffect(env, appended, runId, s.status, true, load);
    assert TouchedIndex(env, appended, runId, s.status, 1, load) == TouchedIndex(env, st, runId, s.status, 1, load);
  }

  /** `record_step` as the views see it, whichever loads fail. */
  lemma RecordStepEffect(env: Env, st: State, runId: string, s: Step, now: int, load: Load := READ)
    requires FieldsKept(env) && Sound(env, st)
    ensures var t := Last(st, RecordStepStates(env, st, runId, s, now, load));
            && Recorded(env, st, t, runId, s, now)
            && Typed(env, t)
            && t.approvals == st.approvals
            && t.index == if Repeats(env, st, runId, s.key) then st.index
                          else TouchedIndex(env, st, runId, s.status, 1, load)
  {
    RepeatsIsAlreadyRecorded(env, st, runId, s.key);
    if !AlreadyRecorded(env, st, runId, s.key) {
      AppendStepEntries(env, st, runId, s, now);
      RecordStepDisk(env, st, runId, s, now, load);
      var appended := AppendStep(env, st, runId, s, now);
      var t := appended.(index := TouchedIndex(env, st, runId, s.status, 1, load));
      SameJournals(env, appended, t);
    }
  }

  // ---------- key namespaces ----------

  predicate Under(runId: string, tag: string, key: string) { runId + tag <= key }

  lemma TagCharacter(runId: string, tag: string, i: nat, key: string)
    requires i < |tag| && Under(runId, tag, key)
    ensures |runId| + i < |key| && key[|runId| + i] == tag[i]
  {
    assert key[|runId| + i] == (runId + tag)[|runId| + i];
  }

  lemma UnderOneTag(runId: string, tag: string, other: string, i: nat, key: string)
    requires i < |tag| && i < |other| && tag[i] != other[i]
    requires Under(runId, tag, key)
    ensures !Under(runId, other, key)
  {
    TagCharacter(runId, tag, i, key);
    if Under(runId, other, key) { TagCharacter(runId, other, i, key); }
  }

  const APPROVAL_TAG := ":approval:"
  const RESOLVED_TAG := ":approval_resolved:"
  const RESUME_TAG := ":resume:"

  /** The keys that only the store itself may use. */
  predicate Reserved(runId: string, key: string) {
    Under(runId, APPROVAL_TAG, key) || Under(runId, RESOLVED_TAG, key) || Under(runId, RESUME_TAG, key)
  }

  lemma ApprovalKeyTag(runId: string, id: string)
    ensures Under(runId, APPROVAL_TAG, ApprovalKey(runId, id))
    ensures !Under(runId, RESOLVED_TAG, ApprovalKey(runId, id)) && !Under(runId, RESUME_TAG, ApprovalKey(runId, id))
  {
    assert ApprovalKey(runId, id) == runId + APPROVAL_TAG + id;
    UnderOneTag(runId, APPROVAL_TAG, RESOLVED_TAG, 9, ApprovalKey(runId, id));
    UnderOneTag(runId, APPROVAL_TAG, RESUME_TAG, 1, ApprovalKey(runId, id));
  }

  lemma ResolvedKeyTag(runId: string, id: string)
    ensures Under(runId, RESOLVED_TAG, ResolvedKey(runId, id))
    ensures !Under(runId, APPROVAL_TAG, ResolvedKey(runId, id)) && !Under(runId, RESUME_TAG, ResolvedKey(runId, id))
  {
    assert ResolvedKey(runId, id) == runId + RESOLVED_TAG + id;
    UnderOneTag(runId, RESOLVED_TAG, APPROVAL_TAG, 9, ResolvedKey(runId, id));
    UnderOneTag(runId, RESOLVED_TAG, RESUME_TAG, 1, ResolvedKey(runId, id));
  }

  lemma ResumeKeyTag(runId: string, stepId: string, second: string)
    ensures Under(runId, RESUME_TAG, ResumeKey(runId, stepId, second))
    ensures !Under(runId, APPROVAL_TAG, ResumeKey(runId, stepId, second))
    ensures !Under(runId, RESOLVED_TAG, ResumeKey(runId, stepId, second))
  {
    assert ResumeKey(runId, stepId, second) == runId + RESUME_TAG + (stepId + ":" + second);
    UnderOneTag(runId, RESUME_TAG, APPROVAL_TAG, 1, ResumeKey(runId, stepId, second));
    UnderOneTag(runId, RESUME_TAG, RESOLVED_TAG, 1, ResumeKey(runId, stepId, second));
  }

  lemma CreatedKeyNotReserved(runId: string)
    ensures !Reserved(runId, CreatedKey(runId))
  {
    assert Under(runId, ":created", CreatedKey(runId));
    UnderOneTag(runId, ":created", APPROVAL_TAG, 1, CreatedKey(runId));
    UnderOneTag(runId, ":created", RESOLVED_TAG, 1, CreatedKey(runId));
    UnderOneTag(runId, ":created", RESUME_TAG, 1, CreatedKey(runId));
  }

  lemma ToolKeyNotReserved(runId: string, tool: string, argsId: string)
    ensures !Reserved(runId, ToolKey(runId, tool, argsId))
  {
    var key := ToolKey(runId, tool, argsId);
    assert key == runId + ":tool:" + (tool + ":" + argsId);
    UnderOneTag(runId, ":tool:", APPROVAL_TAG, 1, key);
    UnderOneTag(runId, ":tool:", RESOLVED_TAG, 1, key);
    UnderOneTag(runId, ":tool:", RESUME_TAG, 1, key);
  }

  lemma SameTail(head: string, a: string, b: string)
    requires head + a == head + b
    ensures a == b
  {
    assert (head + a)[|head|..] == a && (head + b)[|head|..] == b;
  }

  lemma KeysNameTheirCheckpoint(runId: string, id: string, id': string)
    ensures ApprovalKey(runId, id) == ApprovalKey(runId, id') ==> id == id'
    ensures ResolvedKey(runId, id) == ResolvedKey(runId, id') ==> id == id'
  {
    if ApprovalKey(runId, id) == ApprovalKey(runId, id') { SameTail(runId + ":approval:", id, id'); }
    if ResolvedKey(runId, id) == ResolvedKey(runId, id') { SameTail(runId + ":approval_resolved:", id, id'); }
  }

  // ---------- keys of one journal ----------

  /** No two records share a non-empty key. */
  ghost predicate KeysOnce(es: seq<Entry>) {
    forall i, j :: 0 <= i < j < |es| && es[i].key != "" ==> es[i].key != es[j].key
  }

  ghost predicate Journals(env: Env, st: State) {
    forall runId :: KeysOnce(Entries(env, st, runId))
  }

  lemma RecordedKeepsJournals(env: Env, st: State, t: State, runId: string, s: Step, now: int)
    requires Journals(env, st) && Recorded(env, st, t, runId, s, now)
    requires Repeats(env, st, runId, s.key) || env.Scrub(s.key) == s.key
    ensures Journals(env, t)
  {
    forall r
      ensures KeysOnce(Entries(env, t, r))
    {
      assert KeysOnce(Entries(env, st, r));
    }
  }
}
