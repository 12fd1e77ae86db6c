/** Scrubbing a text before it leaves the machine: clip, then scrub (ghostchimera/redaction.py).
    The scrub is a parameter where a result holds of any, and the first of the secret patterns,
    `sk-[A-Za-z0-9_\\-]{12,}`, where an exact answer depends on what a scrub does. */
module Egress {
  import opened Redaction

  const EGRESS_MAX_STRING: nat := 16_384
  const TRUNCATED := "...[truncated]"

  function Clip(s: string): string {
    if |s| > EGRESS_MAX_STRING then s[..EGRESS_MAX_STRING] + TRUNCATED else s
  }

  /** `redact_egress_text` */
  function EgressText(s: string, scrub: Scrubber): string { scrub(Clip(s)) }

  /** Within the limit, or itself a clipped text. */
  predicate ClippedOrShort(s: string) {
    || |s| <= EGRESS_MAX_STRING
    || (|s| == EGRESS_MAX_STRING + |TRUNCATED| && s[EGRESS_MAX_STRING..] == TRUNCATED)
  }

  /** Clipping leaves a text alone exactly when it fits or is itself a clipped text. */
  lemma ClipKeepsIff(s: string)
    ensures Clip(s) == s <==> ClippedOrShort(s)
  {
    if |s| > EGRESS_MAX_STRING { assert s == s[..EGRESS_MAX_STRING] + s[EGRESS_MAX_STRING..]; }
  }

  /** On a text within the limit that the scrub does not lengthen, a second pass changes nothing. */
  lemma ShortEgressIdempotent(s: string, scrub: Scrubber)
    requires Idempotent(scrub) && |s| <= EGRESS_MAX_STRING && |scrub(s)| <= |s|
    ensures EgressText(EgressText(s, scrub), scrub) == EgressText(s, scrub)
  {
  }

  /** Where the scrub has nothing to do on its own output cut once more, a second pass changes
      nothing exactly when there is nothing to cut. */
  lemma EgressIdempotentIff(s: string, scrub: Scrubber)
    requires Idempotent(scrub) && scrub(Clip(EgressText(s, scrub))) == Clip(EgressText(s, scrub))
    ensures EgressText(EgressText(s, scrub), scrub) == EgressText(s, scrub) <==> ClippedOrShort(EgressText(s, scrub))
  {
    ClipKeepsIff(EgressText(s, scrub));
  }

  // ---------- the first secret pattern ----------

  predicate KeyCharacter(c: char) {
    'A' <= c <= 'Z' || 'a' <= c <= 'z' || '0' <= c <= '9' || c == '_' || c == '-'
  }

  /** How many key characters the text begins with. */
  function RunLength(s: string): (n: nat)
    ensures n <= |s|
  {
    if s == "" || !KeyCharacter(s[0]) then 0 else 1 + RunLength(s[1..])
  }

  /** `sk-` and at least twelve more key characters. */
  predicate KeyAt(s: string) { "sk-" <= s && RunLength(s) >= 15 }

  /** `re.sub` with that pattern: each match is the longest run from its place. */
  function ScrubKeys(s: string): string {
    if s == "" then ""
    else if KeyAt(s) then REDACTED + ScrubKeys(s[RunLength(s)..])
    else [s[0]] + ScrubKeys(s[1..])
  }

  /** No key begins anywhere in the text. */
  predicate Keyless(s: string) { forall i :: 0 <= i < |s| ==> !KeyAt(s[i..]) }

  lemma {:induction false} KeylessIsFixed(s: string)
    ensures ScrubKeys(s) == s <==> Keyless(s)
  {
    if s != "" {
      var rest := s[1..];
      KeylessIsFixed(rest);
      assert s == [s[0]] + rest && s[0..] == s;
      assert forall i :: 0 <= i < |rest| ==> rest[i..] == s[i + 1..];
      if KeyAt(s) {
        assert ScrubKeys(s)[0] == '[' && s[0] == 's';
      } else {
        assert ScrubKeys(s)[1..] == ScrubKeys(rest);
        if Keyless(rest) {
          forall i | 0 <= i < |s| ensures !KeyAt(s[i..]) { if i > 0 { assert s[i..] == rest[i - 1..]; } }
        }
      }
    }
  }

  lemma {:induction false} RunOfBoth(a: string, b: string)
    ensures RunLength(a + b) == if RunLength(a) == |a| then |a| + RunLength(b) else RunLength(a)
  {
    if a == "" {
      assert a + b == b;
    } else {
      assert (a + b)[1..] == a[1..] + b;
      if KeyCharacter(a[0]) { RunOfBoth(a[1..], b); }
    }
  }

  lemma ScrubbedHead(s: string)
    ensures s == "" <==> ScrubKeys(s) == ""
    ensures s != "" ==> if KeyAt(s) then ScrubKeys(s)[0] == '['
                        else ScrubKeys(s)[0] == s[0] && ScrubKeys(s)[1..] == ScrubKeys(s[1..])
  {
    hide RunLength;
  }

  /** A run of key characters in scrubbed text was there before. */
  lemma {:induction false} RunWasThere(s: string)
    ensures var n := RunLength(ScrubKeys(s)); n <= RunLength(s) && s[..n] == ScrubKeys(s)[..n]
  {
    hide ScrubKeys, KeyAt;
    ScrubbedHead(s);
    if s != "" {
      var out := ScrubKeys(s);
      if !KeyAt(s) && KeyCharacter(s[0]) {
        RunWasThere(s[1..]);
        var n := RunLength(out);
        assert s[..n] == [s[0]] + s[1..][..n - 1] && out[..n] == [out[0]] + out[1..][..n - 1];
      }
    }
  }

  lemma KeyWasThere(s: string)
    ensures KeyAt(ScrubKeys(s)) ==> KeyAt(s)
  {
    hide RunLength, ScrubKeys;
    RunWasThere(s);
    var out := ScrubKeys(s);
    var n := RunLength(out);
    if n >= 3 { assert s[..3] == s[..n][..3] == out[..n][..3] == out[..3]; }
  }

  lemma NoKeyHere(s: string)
    requires s != "" && s[0] != 's'
    ensures ScrubKeys(s) == [s[0]] + ScrubKeys(s[1..])
  {
  }

  lemma {:induction false} NoKeyStartsIn(a: string, b: string)
    requires 's' !in a
    ensures ScrubKeys(a + b) == a + ScrubKeys(b)
  {
    hide RunLength, ScrubKeys;
    if a == "" {
      assert a + b == b;
    } else {
      assert (a + b)[1..] == a[1..] + b && (a + b)[0] == a[0] && a[0] in a;
      NoKeyHere(a + b);
      NoKeyStartsIn(a[1..], b);
      assert a + ScrubKeys(b) == [a[0]] + (a[1..] + ScrubKeys(b));
    }
  }

  lemma {:induction false} ScrubKeysTwice(s: string)
    ensures ScrubKeys(ScrubKeys(s)) == ScrubKeys(s)
  {
    if s != "" {
      if KeyAt(s) {
        var rest := s[RunLength(s)..];
        ScrubKeysTwice(rest);
        NoKeyStartsIn(REDACTED, ScrubKeys(rest));
      } else {
        ScrubKeysTwice(s[1..]);
        KeyWasThere(s);
        assert ScrubKeys(s)[1..] == ScrubKeys(s[1..]);
      }
    }
  }

  lemma ScrubKeysIdempotent()
    ensures Idempotent(ScrubKeys)
  {
    forall s { ScrubKeysTwice(s); }
  }

  /** Cutting a text without keys and adding a short mark makes no key. */
  lemma CutStaysKeyless(s: string, k: nat, mark: string)
    requires Keyless(s) && k <= |s| && 0 < |mark| < 15 && !KeyCharacter(mark[0])
    ensures Keyless(s[..k] + mark)
  {
    hide RunLength;
    var t := s[..k] + mark;
    forall i | 0 <= i < |t| ensures !KeyAt(t[i..]) {
      if i < k {
        CutMakesNoKey(s[i..k], s[k..], mark);
        assert t[i..] == s[i..k] + mark && s[i..] == s[i..k] + s[k..];
      }
    }
  }

  lemma CutMakesNoKey(p: string, rest: string, mark: string)
    requires mark != "" && !KeyCharacter(mark[0])
    ensures KeyAt(p + mark) ==> KeyAt(p + rest)
  {
    RunOfBoth(p, mark);
    RunOfBoth(p, rest);
    if |p| >= 15 { assert (p + mark)[..3] == p[..3] == (p + rest)[..3]; }
  }

  /** With the first secret pattern as the scrub, a second pass changes nothing exactly when the
      scrubbed text fits the limit or still ends, at the limit, in the mark. */
  lemma SecondPassIff(s: string)
    ensures var once := EgressText(s, ScrubKeys);
            EgressText(once, ScrubKeys) == once <==> ClippedOrShort(once)
  {
    var once := EgressText(s, ScrubKeys);
    ScrubKeysIdempotent();
    KeylessIsFixed(once);
    if |once| > EGRESS_MAX_STRING { CutStaysKeyless(once, EGRESS_MAX_STRING, TRUNCATED); }
    KeylessIsFixed(Clip(once));
    EgressIdempotentIff(s, ScrubKeys);
  }

  // ---------- how much the scrub saves ----------

  /** The characters that the scrub saves: for each match its length less that of `[redacted]`. */
  function Saved(s: string): nat {
    if s == "" then 0
    else if KeyAt(s) then RunLength(s) - |REDACTED| + Saved(s[RunLength(s)..])
    else Saved(s[1..])
  }

  lemma {:induction false} ScrubShortens(s: string)
    ensures |ScrubKeys(s)| == |s| - Saved(s)
    ensures Saved(s) == 0 ==> ScrubKeys(s) == s
  {
    hide ScrubKeys, Saved, RunLength;
    ScrubStep(s);
    if s != "" {
      var rest := if KeyAt(s) then s[RunLength(s)..] else s[1..];
      ScrubShortens(rest);
      assert s == [s[0]] + s[1..];
    }
  }

  /** The first match or character. */
  lemma ScrubStep(s: string)
    ensures s == "" ==> ScrubKeys(s) == "" && Saved(s) == 0
    ensures s != "" && KeyAt(s) ==>
              var rest := s[RunLength(s)..];
              ScrubKeys(s) == REDACTED + ScrubKeys(rest) && Saved(s) == RunLength(s) - |REDACTED| + Saved(rest)
    ensures s != "" && !KeyAt(s) ==> ScrubKeys(s) == [s[0]] + ScrubKeys(s[1..]) && Saved(s) == Saved(s[1..])
  {
  }

  /** For every text, with the first secret pattern as the scrub: a second pass changes nothing if and
      only if the text fits the limit, or the scrub saves nothing on the clipped text, or it saves at
      least the length of the mark. */
  lemma KeysEgressIdempotentIff(s: string)
    ensures EgressText(EgressText(s, ScrubKeys), ScrubKeys) == EgressText(s, ScrubKeys)
            <==> |s| <= EGRESS_MAX_STRING || Saved(Clip(s)) == 0 || Saved(Clip(s)) >= |TRUNCATED|
  {
    hide ScrubKeys, Saved;
    var clipped, once := Clip(s), EgressText(s, ScrubKeys);
    ScrubShortens(clipped);
    SecondPassIff(s);
    if |s| > EGRESS_MAX_STRING {
      assert |clipped| == EGRESS_MAX_STRING + |TRUNCATED|;
      if Saved(clipped) == 0 { assert clipped[EGRESS_MAX_STRING..] == TRUNCATED; }
    }
  }

  /** On a text within the limit a second pass changes nothing: the scrub lengthens no text. */
  lemma ShortKeysEgressIdempotent(s: string)
    requires |s| <= EGRESS_MAX_STRING
    ensures EgressText(EgressText(s, ScrubKeys), ScrubKeys) == EgressText(s, ScrubKeys)
  {
    ScrubKeysIdempotent();
    ScrubShortens(s);
    ShortEgressIdempotent(s, ScrubKeys);
  }

  /** Keys one after another save what they save one by one: it does not matter where they stand. */
  lemma {:induction false} SavedByKeys(before: string, key: string, rest: string)
    requires IsKey(key) && 's' !in before && rest != "" && !KeyCharacter(rest[0])
    ensures Saved(before + (key + rest)) == |key| - |REDACTED| + Saved(rest)
  {
    hide RunLength;
    if before == "" {
      RunOfKey(key, rest);
      assert before + (key + rest) == key + rest;
      assert (key + rest)[..3] == key[..3] == "sk-" && (key + rest)[|key|..] == rest;
    } else {
      var s := before + (key + rest);
      assert s[0] == before[0] && before[0] in before && s[1..] == before[1..] + (key + rest);
      SavedByKeys(before[1..], key, rest);
    }
  }

  // ---------- one key in a long text ----------

  /** A whole match of the pattern. */
  predicate IsKey(key: string) { "sk-" <= key && |key| >= 15 && forall c :: c in key ==> KeyCharacter(c) }

  function Blanks(m: nat): string { seq(m, _ => ' ') }

  lemma {:induction false} RunOfKey(key: string, rest: string)
    requires (forall c :: c in key ==> KeyCharacter(c)) && rest != "" && !KeyCharacter(rest[0])
    ensures RunLength(key + rest) == |key|
  {
    if key == "" {
      assert key + rest == rest;
    } else {
      assert (key + rest)[1..] == key[1..] + rest && key[0] in key;
      RunOfKey(key[1..], rest);
    }
  }

  lemma {:induction false} NothingSaved(s: string)
    requires 's' !in s
    ensures Saved(s) == 0
  {
    hide RunLength;
    if s != "" {
      assert s[0] in s;
      NothingSaved(s[1..]);
    }
  }

  /** Keys that stand apart in a text which they fill up to the limit. */
  lemma SavedByTwo(key: string, other: string, gap: string, tail: string)
    requires IsKey(key) && IsKey(other) && 's' !in gap && gap != "" && !KeyCharacter(gap[0])
    requires 's' !in tail && tail != "" && !KeyCharacter(tail[0])
    ensures Saved(key + (gap + (other + tail))) == |key| + |other| - 2 * |REDACTED|
  {
    hide Saved, RunLength, IsKey;
    SavedByKeys("", key, gap + (other + tail));
    assert "" + (key + (gap + (other + tail))) == key + (gap + (other + tail));
    SavedByKeys(gap, other, tail);
    NothingSaved(tail);
  }

  /** A key at the head of a blank text that is clipped: the scrub puts the ten characters of
      `[redacted]` for it, and a second pass changes nothing exactly when that shortens the text by
      at least the length of the mark. */
  lemma ClippedKeyIdempotentIff(key: string, m: nat)
    requires IsKey(key) && |key| < EGRESS_MAX_STRING && |key| + m > EGRESS_MAX_STRING
    ensures var once := EgressText(key + Blanks(m), ScrubKeys);
            EgressText(once, ScrubKeys) == once <==> |key| - |REDACTED| >= |TRUNCATED|
  {
    hide RunLength, ScrubKeys, EgressText, Saved, IsKey;
    var s, blanks := key + Blanks(m), Blanks(EGRESS_MAX_STRING - |key|);
    assert s[..EGRESS_MAX_STRING] == key + blanks;
    assert Clip(s) == "" + (key + (blanks + TRUNCATED));
    SavedByKeys("", key, blanks + TRUNCATED);
    NothingSaved(blanks + TRUNCATED);
    KeyIsLong(key);
    KeysEgressIdempotentIff(s);
  }

  lemma KeyIsLong(key: string)
    requires IsKey(key)
    ensures |key| >= 15
  {
  }
}
