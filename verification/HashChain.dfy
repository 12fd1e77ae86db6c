/** The hash-chained run journal: appending, reading back, verifying
    (ghostchimera/trust_runtime.py). */
module HashChain {
  import opened Redaction

  type Record = map<string, Json>

  /** One line of a journal file.  Lines that are not JSON are skipped by the reader. */
  datatype Line = Garbled | Parsed(v: Json)

  /** What the journal code calls out to: the string scrubber, SHA-256 over canonical JSON, and
      `str` of a JSON value that is not a string. */
  datatype Codec = Codec(redactor: Redactor, hash: Json -> string, repr: Json -> string) {

    /** `str(value or "")` */
    function Text(v: Json): string {
      if !Truthy(v) then "" else if v.Str? then v.s else repr(v)
    }

    /** What the chain needs of the redactor: a second scrub changes nothing, neither the empty
        string nor a digest is ever scrubbed, and the hash fields are not secrets. */
    ghost predicate KeepsDigests() {
      && Idempotent(redactor.scrub)
      && redactor.scrub("") == ""
      && (forall v :: redactor.scrub(hash(v)) == hash(v))
      && !redactor.marked(PREVIOUS) && !redactor.marked(OWN)
    }

    ghost predicate DigestsNonEmpty() {
      forall v :: hash(v) != ""
    }
  }

  const PREVIOUS := "previous_hash"
  const OWN := "record_hash"

  function Field(r: Record, key: string): Json {
    if key in r then r[key] else Null
  }

  function OwnHash(r: Record, c: Codec): string { c.Text(Field(r, OWN)) }

  function PreviousHash(r: Record, c: Codec): string { c.Text(Field(r, PREVIOUS)) }

  /** Everything the digest of a record covers. */
  function Payload(r: Record): Json { Obj(r - {OWN}) }

  // ---------- files ----------

  /** `_read_jsonl`: unreadable lines and values that are not objects are skipped, and every
      object is redacted again. */
  function Read(lines: seq<Line>, c: Codec): seq<Record> {
    if lines == [] then []
    else
      var last := lines[|lines| - 1];
      var before := Read(lines[..|lines| - 1], c);
      if last.Parsed? && last.v.Obj? then before + [Redact(last.v, c.redactor).fields] else before
  }

  /** `_append_jsonl` */
  function LineFor(r: Record, c: Codec): Line { Parsed(Redact(Obj(r), c.redactor)) }

  function LatestHash(records: seq<Record>, c: Codec): string {
    if records == [] then "" else OwnHash(records[|records| - 1], c)
  }

  /** `_with_record_hash` */
  function WithHash(records: seq<Record>, payload: Record, c: Codec): Record {
    var r := payload[PREVIOUS := Str(LatestHash(records, c))];
    r[OWN := Str(c.hash(Obj(r)))]
  }

  // ---------- verification ----------

  predicate Linked(records: seq<Record>, i: nat, c: Codec)
    requires i < |records|
  {
    PreviousHash(records[i], c) == LatestHash(records[..i], c)
  }

  predicate Sealed(r: Record, c: Codec) {
    OwnHash(r, c) == c.hash(Payload(r))
  }

  /** Every record names the digest of the one before it and carries its own. */
  predicate ChainOk(records: seq<Record>, c: Codec) {
    forall i :: 0 <= i < |records| ==> Linked(records, i, c) && Sealed(records[i], c)
  }

  datatype Verdict =
    | Verified(stepCount: nat, latestHash: string)
    | PreviousMismatch(index: nat)
    | RecordMismatch(index: nat)

  /** `verify_run_integrity`.  A journal is accepted exactly when its chain is whole; otherwise
      the first bad record is named, and a broken link is reported before a broken seal. */
  method VerifyRunIntegrity(lines: seq<Line>, c: Codec) returns (verdict: Verdict)
    ensures verdict.Verified? <==> ChainOk(Read(lines, c), c)
    ensures verdict.Verified? ==>
              verdict.stepCount == |Read(lines, c)| && verdict.latestHash == LatestHash(Read(lines, c), c)
    ensures !verdict.Verified? ==>
              && verdict.index < |Read(lines, c)|
              && ChainOk(Read(lines, c)[..verdict.index], c)
              && (verdict.PreviousMismatch? <==> !Linked(Read(lines, c), verdict.index, c))
  {
    hide Redact, Payload;
    var steps := Read(lines, c);
    var previousHash := "";
    for index := 0 to |steps|
      invariant previousHash == LatestHash(steps[..index], c)
      invariant ChainOk(steps[..index], c)
    {
      var step := steps[index];
      PrefixOfChain(steps, index, c);
      if PreviousHash(step, c) != previousHash { return PreviousMismatch(index); }
      if OwnHash(step, c) != c.hash(Payload(step)) {
        assert !Sealed(steps[index], c);
        return RecordMismatch(index);
      }
      previousHash := OwnHash(step, c);
      assert steps[..index + 1] == steps[..index] + [step];
      ChainGrows(steps[..index], step, c);
    }
    assert steps[..|steps|] == steps;
    return Verified(|steps|, previousHash);
  }

  /** Links and seals of a prefix are those of the whole. */
  lemma PrefixOfChain(records: seq<Record>, n: nat, c: Codec)
    requires n <= |records|
    ensures ChainOk(records[..n], c) <==>
            forall i :: 0 <= i < n ==> Linked(records, i, c) && Sealed(records[i], c)
  {
    forall i | 0 <= i < n
      ensures Linked(records[..n], i, c) == Linked(records, i, c) && records[..n][i] == records[i]
    {
      assert records[..n][..i] == records[..i];
    }
  }

  lemma ChainGrows(records: seq<Record>, r: Record, c: Codec)
    requires ChainOk(records, c)
    requires PreviousHash(r, c) == LatestHash(records, c) && Sealed(r, c)
    ensures ChainOk(records + [r], c)
  {
    var all := records + [r];
    assert all[..|records|] == records;
    PrefixOfChain(all, |records|, c);
  }

  lemma LastOfChain(records: seq<Record>, c: Codec)
    requires ChainOk(records, c) && records != []
    ensures var last, before := records[|records| - 1], records[..|records| - 1];
            && ChainOk(before, c)
            && PreviousHash(last, c) == LatestHash(before, c)
            && LatestHash(records, c) == c.hash(Payload(last)) == OwnHash(last, c)
  {
    var n := |records| - 1;
    assert Linked(records, n, c) && Sealed(records[n], c);
    PrefixOfChain(records, n, c);
  }

  // ---------- redaction leaves stored records alone ----------

  /** A record that a redaction pass returns unchanged. */
  predicate Settled(r: Record, c: Codec) { Redact(Obj(r), c.redactor) == Obj(r) }

  /** Adding the two hash fields to a redacted payload keeps it a fixed point of redaction. */
  lemma HashFieldsStaySettled(records: seq<Record>, payload: Record, c: Codec)
    requires c.KeepsDigests()
    requires ChainOk(records, c) && Settled(payload, c)
    ensures Settled(WithHash(records, payload, c), c)
  {
    if records != [] { LastOfChain(records, c); }
    var r := WithHash(records, payload, c);
    assert Redact(r[PREVIOUS], c.redactor, 1) == r[PREVIOUS];
    assert Redact(r[OWN], c.redactor, 1) == r[OWN];
    var out := Redact(Obj(r), c.redactor).fields;
    forall key | key in payload && key != PREVIOUS && key != OWN
      ensures out[key] == r[key]
    {
      assert Redact(Obj(payload), c.redactor).fields[key] == payload[key];
    }
    assert out == r;
  }

  lemma ReadAppend(lines: seq<Line>, r: Record, c: Codec)
    requires Settled(r, c)
    ensures Read(lines + [LineFor(r, c)], c) == Read(lines, c) + [r]
  {
    assert (lines + [LineFor(r, c)])[..|lines|] == lines;
    assert Redact(Obj(r), c.redactor).fields == r;
  }

  /** Redaction when the record is built, again on append and again on read never breaks the
      chain: the record read back is the record that was hashed, and the longer journal verifies. */
  lemma AppendKeepsChain(lines: seq<Line>, payload: Record, c: Codec)
    requires c.KeepsDigests()
    requires ChainOk(Read(lines, c), c)
    requires Settled(payload, c) && OWN !in payload
    ensures var r := WithHash(Read(lines, c), payload, c);
            && Read(lines + [LineFor(r, c)], c) == Read(lines, c) + [r]
            && ChainOk(Read(lines + [LineFor(r, c)], c), c)
  {
    var records := Read(lines, c);
    var r := WithHash(records, payload, c);
    HashFieldsStaySettled(records, payload, c);
    ReadAppend(lines, r, c);
    var sealedPart := payload[PREVIOUS := Str(LatestHash(records, c))];
    assert r - {OWN} == sealedPart;
    ChainGrows(records, r, c);
  }

  // ---------- tamper evidence ----------

  /** The two records agree on everything the digest covers, and on the digest. */
  predicate SameRecord(a: Record, b: Record, c: Codec) {
    Payload(a) == Payload(b) && OwnHash(a, c) == OwnHash(b, c)
  }

  predicate SameJournal(a: seq<Record>, b: seq<Record>, c: Codec) {
    |a| == |b| && forall i :: 0 <= i < |a| ==> SameRecord(a[i], b[i], c)
  }

  ghost predicate Collision(p: Json, q: Json, c: Codec) {
    p != q && c.hash(p) == c.hash(q)
  }

  /** Two journals that verify and end in the same hash agree record for record, or a record of the
      one and a record of the other have different payloads with the same digest.  No property of
      the digest is assumed beyond its never being the empty string. */
  lemma {:induction false} TamperEvidence(a: seq<Record>, b: seq<Record>, c: Codec)
      returns (i: nat, j: nat)
    requires c.DigestsNonEmpty()
    requires ChainOk(a, c) && ChainOk(b, c)
    requires LatestHash(a, c) == LatestHash(b, c)
    ensures SameJournal(a, b, c) || (i < |a| && j < |b| && Collision(Payload(a[i]), Payload(b[j]), c))
    decreases |a|
  {
    hide Redact, Payload, Collision, SameJournal, ChainOk, LatestHash, PreviousHash, OwnHash;
    i, j := 0, 0;
    BothEmptyOrNeither(a, b, c);
    if a != [] {
      LastOfChain(a, c);
      LastOfChain(b, c);
      var n, m := |a| - 1, |b| - 1;
      if Payload(a[n]) != Payload(b[m]) {
        i, j := n, m;
        SameHashOfLast(a, b, c);
      } else {
        SamePayloadSamePrevious(a[n], b[m], c);
        i, j := TamperEvidence(a[..n], b[..m], c);
        assert i < n ==> a[..n][i] == a[i];
        assert j < m ==> b[..m][j] == b[j];
        if SameJournal(a[..n], b[..m], c) { SameJournalGrows(a, b, c); }
      }
    }
  }

  lemma BothEmptyOrNeither(a: seq<Record>, b: seq<Record>, c: Codec)
    requires c.DigestsNonEmpty() && ChainOk(a, c) && ChainOk(b, c) && LatestHash(a, c) == LatestHash(b, c)
    ensures a == [] <==> b == []
    ensures a == [] ==> SameJournal(a, b, c)
  {
    hide Redact, Payload;
    if a != [] { LastOfChain(a, c); }
    if b != [] { LastOfChain(b, c); }
  }

  lemma SameHashOfLast(a: seq<Record>, b: seq<Record>, c: Codec)
    requires a != [] && b != [] && ChainOk(a, c) && ChainOk(b, c) && LatestHash(a, c) == LatestHash(b, c)
    requires Payload(a[|a| - 1]) != Payload(b[|b| - 1])
    ensures Collision(Payload(a[|a| - 1]), Payload(b[|b| - 1]), c)
  {
    hide Redact, Payload;
    LastOfChain(a, c);
    LastOfChain(b, c);
  }

  lemma SameJournalGrows(a: seq<Record>, b: seq<Record>, c: Codec)
    requires a != [] && b != []
    requires SameJournal(a[..|a| - 1], b[..|b| - 1], c)
    requires SameRecord(a[|a| - 1], b[|b| - 1], c)
    ensures SameJournal(a, b, c)
  {
    forall i | 0 <= i < |a| - 1
      ensures SameRecord(a[i], b[i], c)
    {
      assert SameRecord(a[..|a| - 1][i], b[..|b| - 1][i], c);
    }
  }

  lemma SamePayloadSamePrevious(a: Record, b: Record, c: Codec)
    requires Payload(a) == Payload(b)
    ensures PreviousHash(a, c) == PreviousHash(b, c)
  {
    assert Field(Payload(a).fields, PREVIOUS) == Field(a, PREVIOUS);
    assert Field(Payload(b).fields, PREVIOUS) == Field(b, PREVIOUS);
  }

  /** If no two payloads of the journals collide, and hash fields are strings as the store writes
      them, agreement is equality: any edit, insertion, deletion, reordering or truncation of a
      journal that still verifies changes its latest hash. */
  lemma TamperingChangesLatestHash(a: seq<Record>, b: seq<Record>, c: Codec)
    requires c.DigestsNonEmpty()
    requires forall i, j :: 0 <= i < |a| && 0 <= j < |b| ==> !Collision(Payload(a[i]), Payload(b[j]), c)
    requires ChainOk(a, c) && ChainOk(b, c)
    requires forall i :: 0 <= i < |a| ==> Field(a[i], OWN).Str?
    requires forall i :: 0 <= i < |b| ==> Field(b[i], OWN).Str?
    ensures a != b <==> LatestHash(a, c) != LatestHash(b, c)
  {
    if LatestHash(a, c) == LatestHash(b, c) {
      var _, _ := TamperEvidence(a, b, c);
      forall i | 0 <= i < |a|
        ensures a[i] == b[i]
      {
        assert SameRecord(a[i], b[i], c);
        SameStringRecord(a[i], b[i], c);
      }
    }
  }

  lemma SameStringRecord(a: Record, b: Record, c: Codec)
    requires SameRecord(a, b, c)
    requires Field(a, OWN).Str? && Field(b, OWN).Str?
    ensures a == b
  {
    assert c.Text(a[OWN]) == a[OWN].s && c.Text(b[OWN]) == b[OWN].s;
    assert a == Payload(a).fields[OWN := a[OWN]];
    assert b == Payload(b).fields[OWN := b[OWN]];
  }

  // ---------- what verification does not see ----------

  /** Inserting a line anywhere is invisible to every reader, the verifier included, exactly when
      the line is not a JSON object. */
  lemma {:induction false} InsertedLineIsInvisibleIff(before: seq<Line>, line: Line, after: seq<Line>, c: Codec)
    ensures Read(before + [line] + after, c) == Read(before + after, c)
            <==> !(line.Parsed? && line.v.Obj?)
  {
    InsertedLineCounts(before, line, after, c);
    if !(line.Parsed? && line.v.Obj?) { SkippedLine(before, line, after, c); }
  }

  lemma {:induction false} SkippedLine(before: seq<Line>, line: Line, after: seq<Line>, c: Codec)
    requires !(line.Parsed? && line.v.Obj?)
    ensures Read(before + [line] + after, c) == Read(before + after, c)
    decreases |after|
  {
    if after == [] {
      assert before + [line] + after == before + [line];
      assert before + after == before && (before + [line])[..|before|] == before;
    } else {
      var n := |after| - 1;
      SkippedLine(before, line, after[..n], c);
      assert (before + [line] + after)[..|before| + 1 + n] == before + [line] + after[..n];
      assert (before + after)[..|before| + n] == before + after[..n];
    }
  }

  lemma {:induction false} InsertedLineCounts(before: seq<Line>, line: Line, after: seq<Line>, c: Codec)
    ensures |Read(before + [line] + after, c)|
            == |Read(before + after, c)| + (if line.Parsed? && line.v.Obj? then 1 else 0)
    decreases |after|
  {
    if after == [] {
      assert before + [line] + after == before + [line];
      assert before + after == before && (before + [line])[..|before|] == before;
    } else {
      var n := |after| - 1;
      InsertedLineCounts(before, line, after[..n], c);
      assert (before + [line] + after)[..|before| + 1 + n] == before + [line] + after[..n];
      assert (before + after)[..|before| + n] == before + after[..n];
    }
  }
}
