/** Structural redaction of JSON trees (ghostchimera/redaction.py).

    The regular expressions that scrub one string are not modelled: the scrubber is a
    parameter, and each result names what it needs from it. */
module Redaction {

  /** A JSON value as `json.loads` returns it.  Dictionaries are maps: they are always
      serialised with sorted keys, so their order is not observable.  Numbers are their values: 1
      and 1.0 are one number here, although their texts, and so the digests of records that hold
      them, differ. */
  datatype Json =
    | Null
    | Bool(b: bool)
    | Num(n: real)
    | Str(s: string)
    | Arr(items: seq<Json>)
    | Obj(fields: map<string, Json>)

  type Scrubber = string -> string

  /** `redact_secret_values` with its `markers` argument, or `redact_for_egress`: how one string
      is scrubbed, and which dictionary keys hide their value. */
  datatype Redactor = Redactor(scrub: Scrubber, marked: string -> bool)

  const EGRESS_MAX_DEPTH: nat := 32

  const DEPTH_MARK := "[redacted:depth]"
  const REDACTED := "[redacted]"

  // ---------- keys that mark a secret ----------

  function LowerChar(c: char): char {
    if 'A' <= c <= 'Z' then c + ('a' - 'A') else c
  }

  function Lower(s: string): string {
    if s == "" then "" else [LowerChar(s[0])] + Lower(s[1..])
  }

  predicate Contains(s: string, part: string) {
    part <= s || (s != "" && Contains(s[1..], part))
  }

  /** The key contains one of the `SECRET_MARKERS`. */
  predicate SecretKey(key: string) {
    var k := Lower(key);
    || Contains(k, "token") || Contains(k, "secret") || Contains(k, "api_key") || Contains(k, "apikey")
    || Contains(k, "password") || Contains(k, "credential") || Contains(k, "authorization")
    || Contains(k, "bearer")
  }

  lemma {:induction false} ContainedCharacters(s: string, part: string)
    requires Contains(s, part)
    ensures forall c :: c in part ==> c in s
  {
    if part <= s {
      assert s[..|part|] == part;
    } else {
      ContainedCharacters(s[1..], part);
    }
  }

  lemma {:induction false} LowerFixes(s: string)
    requires forall i :: 0 <= i < |s| ==> !('A' <= s[i] <= 'Z')
    ensures Lower(s) == s
  {
    if s != "" { LowerFixes(s[1..]); }
  }

  lemma {:induction false} ContainsAt(s: string, part: string) returns (k: nat)
    requires Contains(s, part)
    ensures k + |part| <= |s| && forall j :: 0 <= j < |part| ==> s[k + j] == part[j]
  {
    k := 0;
    if !(part <= s) {
      var rest := ContainsAt(s[1..], part);
      k := rest + 1;
    }
  }

  /** A lower-case key does not contain a word one of whose characters it lacks. */
  lemma LacksWord(key: string, word: string, c: char)
    requires Lower(key) == key
    requires c in word && c !in key
    ensures !Contains(Lower(key), word)
  {
    if Contains(key, word) { ContainedCharacters(key, word); }
  }

  /** Nor one that begins with two characters it never has side by side. */
  lemma LacksPair(key: string, word: string, a: char, b: char)
    requires Lower(key) == key && NeverAdjacent(key, a, b)
    requires |word| > 1 && word[0] == a && word[1] == b
    ensures !Contains(Lower(key), word)
  {
    if Contains(key, word) {
      var k := ContainsAt(key, word);
    }
  }

  /** Lower-case letters and underscores, none of them in `lacking`. */
  predicate Lacks(key: string, lacking: set<char>) {
    forall i :: 0 <= i < |key| ==> !('A' <= key[i] <= 'Z') && key[i] !in lacking
  }

  predicate NeverAdjacent(key: string, a: char, b: char) {
    forall i :: 0 <= i < |key| - 1 ==> key[i] != a || key[i + 1] != b
  }

  /** No key that lacks 'r' and 'k', or 'r' and 'a', is secret, unless it has a "to". */
  lemma NotSecretWithoutR(key: string, keyLetter: char)
    requires keyLetter == 'k' || keyLetter == 'a'
    requires Lacks(key, {'r', keyLetter}) && NeverAdjacent(key, 't', 'o')
    ensures !SecretKey(key)
  {
    LowerFixes(key);
    LacksPair(key, "token", 't', 'o');
    LacksWord(key, "secret", 'r');
    LacksWord(key, "api_key", keyLetter);
    LacksWord(key, "apikey", keyLetter);
    LacksWord(key, "password", 'r');
    LacksWord(key, "credential", 'r');
    LacksWord(key, "authorization", 'r');
    LacksWord(key, "bearer", 'r');
  }

  /** No key that lacks 't' and 'b', and has none of the letters the other markers need. */
  lemma NotSecretWithoutT(key: string, keyLetter: char, passwordLetter: char, credentialLetter: char)
    requires Lacks(key, {'t', 'b', keyLetter, passwordLetter, credentialLetter})
    requires (keyLetter == 'k' || keyLetter == 'p') && (passwordLetter == 'w' || passwordLetter == 'p')
    requires credentialLetter == 'c' || credentialLetter == 'n'
    ensures !SecretKey(key)
  {
    LowerFixes(key);
    LacksWord(key, "token", 't');
    LacksWord(key, "secret", 't');
    LacksWord(key, "api_key", keyLetter);
    LacksWord(key, "apikey", keyLetter);
    LacksWord(key, "password", passwordLetter);
    LacksWord(key, "credential", credentialLetter);
    LacksWord(key, "authorization", 't');
    LacksWord(key, "bearer", 'b');
  }

  /** Python truthiness: a falsy secret becomes "" and any other becomes the marker. */
  predicate Truthy(v: Json) {
    match v
    case Null => false
    case Bool(b) => b
    case Num(n) => n != 0.0
    case Str(s) => s != ""
    case Arr(items) => items != []
    case Obj(fields) => fields != map[]
  }

  function Blank(v: Json): Json {
    if Truthy(v) then Str(REDACTED) else Str("")
  }

  // ---------- the redactor ----------

  /** `redact_secret_values`; with the egress scrubber it is `redact_for_egress`. */
  function Redact(v: Json, r: Redactor, depth: nat := 0): Json
    decreases v
  {
    if depth > EGRESS_MAX_DEPTH then Str(DEPTH_MARK)
    else
      match v
      case Obj(fields) =>
        Obj(map key | key in fields ::
              if r.marked(key) then Blank(fields[key]) else Redact(fields[key], r, depth + 1))
      case Arr(items) => Arr(seq(|items|, i requires 0 <= i < |items| => Redact(items[i], r, depth + 1)))
      case Str(s) => Str(r.scrub(s))
      case _ => v
  }

  // ---------- what a redacted tree looks like ----------

  ghost predicate Idempotent(scrub: Scrubber) {
    forall s :: scrub(scrub(s)) == scrub(s)
  }

  /** Containers nest at most `levels` deep. */
  predicate NestsAtMost(v: Json, levels: nat)
    decreases v
  {
    match v
    case Obj(fields) => levels > 0 && forall key :: key in fields ==> NestsAtMost(fields[key], levels - 1)
    case Arr(items) => levels > 0 && forall i :: 0 <= i < |items| ==> NestsAtMost(items[i], levels - 1)
    case _ => true
  }

  /** No value under a marked key survives, anywhere in the tree. */
  predicate SecretsBlank(v: Json, r: Redactor)
    decreases v
  {
    match v
    case Obj(fields) =>
      forall key :: key in fields ==>
        if r.marked(key) then fields[key] in {Str(REDACTED), Str("")} else SecretsBlank(fields[key], r)
    case Arr(items) => forall i :: 0 <= i < |items| ==> SecretsBlank(items[i], r)
    case _ => true
  }

  /** The scrubber would change no string outside a marked key; only below the depth cap may
      the marker stand unscrubbed. */
  predicate StringsScrubbed(v: Json, r: Redactor, depth: nat)
    decreases v
  {
    match v
    case Obj(fields) =>
      forall key :: key in fields && !r.marked(key) ==> StringsScrubbed(fields[key], r, depth + 1)
    case Arr(items) => forall i :: 0 <= i < |items| ==> StringsScrubbed(items[i], r, depth + 1)
    case Str(s) => r.scrub(s) == s || (depth > EGRESS_MAX_DEPTH && s == DEPTH_MARK)
    case _ => true
  }

  /** Everything at a level below the cap is the marker. */
  predicate CutAtCap(v: Json, r: Redactor, depth: nat)
    decreases v
  {
    if depth > EGRESS_MAX_DEPTH then v == Str(DEPTH_MARK)
    else
      match v
      case Obj(fields) => forall key :: key in fields && !r.marked(key) ==> CutAtCap(fields[key], r, depth + 1)
      case Arr(items) => forall i :: 0 <= i < |items| ==> CutAtCap(items[i], r, depth + 1)
      case _ => true
  }

  /** A tree is left alone by the redactor exactly when its secrets are blank, its strings are
      scrubbed and it is cut at the cap. */
  lemma {:induction false} FixedPointIffClean(v: Json, r: Redactor, depth: nat)
    requires depth <= EGRESS_MAX_DEPTH + 1
    ensures Redact(v, r, depth) == v <==>
            SecretsBlank(v, r) && StringsScrubbed(v, r, depth) && CutAtCap(v, r, depth)
    decreases v
  {
    if depth <= EGRESS_MAX_DEPTH {
      match v
      case Obj(fields) =>
        var out := Redact(v, r, depth);
        forall key | key in fields
          ensures out.fields[key] == fields[key] <==>
                  if r.marked(key) then fields[key] in {Str(REDACTED), Str("")}
                  else SecretsBlank(fields[key], r) && StringsScrubbed(fields[key], r, depth + 1)
                       && CutAtCap(fields[key], r, depth + 1)
        {
          if !r.marked(key) { FixedPointIffClean(fields[key], r, depth + 1); }
        }
        assert out == v <==> forall key :: key in fields ==> out.fields[key] == fields[key];
      case Arr(items) =>
        var out := Redact(v, r, depth);
        forall i | 0 <= i < |items|
          ensures out.items[i] == items[i] <==>
                  SecretsBlank(items[i], r) && StringsScrubbed(items[i], r, depth + 1)
                  && CutAtCap(items[i], r, depth + 1)
        {
          FixedPointIffClean(items[i], r, depth + 1);
        }
        assert out == v <==> forall i :: 0 <= i < |items| ==> out.items[i] == items[i];
      case _ =>
    }
  }

  /** Redacting what was already redacted changes nothing. */
  lemma {:induction false} RedactIdempotent(v: Json, r: Redactor, depth: nat)
    requires Idempotent(r.scrub)
    ensures Redact(Redact(v, r, depth), r, depth) == Redact(v, r, depth)
    decreases v
  {
    if depth <= EGRESS_MAX_DEPTH {
      match v
      case Obj(fields) =>
        forall key | key in fields { RedactIdempotent(fields[key], r, depth + 1); }
      case Arr(items) =>
        forall i | 0 <= i < |items| { RedactIdempotent(items[i], r, depth + 1); }
      case _ =>
    }
  }

  lemma {:induction false} RedactNesting(v: Json, r: Redactor, depth: nat)
    requires depth <= EGRESS_MAX_DEPTH + 1
    ensures NestsAtMost(Redact(v, r, depth), EGRESS_MAX_DEPTH + 1 - depth)
    decreases v
  {
    if depth <= EGRESS_MAX_DEPTH {
      match v
      case Obj(fields) =>
        forall key | key in fields && !r.marked(key) { RedactNesting(fields[key], r, depth + 1); }
      case Arr(items) =>
        forall i | 0 <= i < |items| { RedactNesting(items[i], r, depth + 1); }
      case _ =>
    }
  }

  /** What leaves the redactor: nesting is bounded by the cap, no marked value survives, every
      string is scrubbed, and a second pass is the identity. */
  lemma RedactedTree(v: Json, r: Redactor)
    requires Idempotent(r.scrub)
    ensures var out := Redact(v, r);
            && NestsAtMost(out, EGRESS_MAX_DEPTH + 1)
            && SecretsBlank(out, r)
            && StringsScrubbed(out, r, 0)
            && Redact(out, r) == out
  {
    RedactIdempotent(v, r, 0);
    RedactNesting(v, r, 0);
    FixedPointIffClean(Redact(v, r), r, 0);
  }
}
