/** Check digits of card and bank account numbers (ghostchimera/redaction.py): the Luhn formula of
    ISO/IEC 7812-1 Annex B, and MOD 97-10 of ISO/IEC 7064 as ISO 13616-1 uses it. */
module CheckDigits {
  import opened Wrappers

  predicate IsDigit(c: char) { '0' <= c <= '9' }

  type Digit = d: nat | d < 10

  function DigitOf(c: char): Digit
    requires IsDigit(c)
  {
    c as int - '0' as int
  }

  /** The digits of a text, in order. */
  function Digits(text: string): (ds: seq<Digit>)
    ensures |ds| <= |text|
  {
    if text == "" then []
    else (if IsDigit(text[0]) then [DigitOf(text[0])] else []) + Digits(text[1..])
  }

  // ---------- Luhn ----------

  /** What a digit at place `i` from the right contributes. */
  function Term(d: Digit, i: nat): nat {
    if i % 2 == 1 then if d * 2 > 9 then d * 2 - 9 else d * 2 else d
  }

  function LuhnSum(ds: seq<Digit>): nat {
    if ds == [] then 0 else Term(ds[0], |ds| - 1) + LuhnSum(ds[1..])
  }

  predicate LuhnAccepts(ds: seq<Digit>) { 13 <= |ds| <= 19 && LuhnSum(ds) % 10 == 0 }

  /** `_luhn_ok` */
  method LuhnOk(candidate: string) returns (ok: bool)
    ensures ok <==> LuhnAccepts(Digits(candidate))
  {
    var digits := Digits(candidate);
    if !(13 <= |digits| <= 19) { return false; }
    var total := 0;
    for index := 0 to |digits|
      invariant total == LuhnSum(digits[|digits| - index..])
    {
      var rest := digits[|digits| - 1 - index..];
      assert rest[0] == digits[|digits| - 1 - index] && rest[1..] == digits[|digits| - index..];
      var digit: nat := digits[|digits| - 1 - index];
      if index % 2 == 1 {
        digit := digit * 2;
        if digit > 9 { digit := digit - 9; }
      }
      total := total + digit;
    }
    assert digits[|digits| - |digits|..] == digits;
    ok := total % 10 == 0;
  }

  lemma {:induction false} LuhnSumUpdate(ds: seq<Digit>, k: nat, d: Digit)
    requires k < |ds|
    ensures LuhnSum(ds[k := d]) + Term(ds[k], |ds| - 1 - k) == LuhnSum(ds) + Term(d, |ds| - 1 - k)
  {
    if k > 0 {
      assert ds[k := d][1..] == ds[1..][k - 1 := d];
      LuhnSumUpdate(ds[1..], k - 1, d);
    } else {
      assert ds[k := d][1..] == ds[1..];
    }
  }

  /** At each place different digits contribute differently modulo 10. */
  lemma TermsDiffer(a: Digit, b: Digit, i: nat)
    ensures Term(a, i) % 10 == Term(b, i) % 10 <==> a == b
  {
  }

  /** The digit that contributes a given remainder. */
  function Inverse(r: Digit, i: nat): (d: Digit)
    ensures Term(d, i) % 10 == r
  {
    if i % 2 == 0 then r else if r % 2 == 0 then r / 2 else (r + 9) / 2
  }

  predicate Fits(ds: seq<Digit>, k: nat, d: Digit)
    requires k < |ds|
  {
    LuhnAccepts(ds[k := d])
  }

  lemma FitsIff(ds: seq<Digit>, k: nat, d: Digit)
    requires 13 <= |ds| <= 19 && k < |ds|
    ensures var i := |ds| - 1 - k;
            Fits(ds, k, d) <==> (LuhnSum(ds) - Term(ds[k], i) + Term(d, i)) % 10 == 0
  {
    LuhnSumUpdate(ds, k, d);
  }

  lemma FillsTheSum(a: int, b: int, r: int)
    requires r == (10 - a % 10) % 10
    ensures (a + b) % 10 == 0 <==> b % 10 == r
  {
  }

  lemma OneTermCompletes(others: int, i: nat, d: Digit)
    ensures (others + Term(d, i)) % 10 == 0 <==> d == Inverse((10 - others % 10) % 10, i)
  {
    hide Term;
    var r := (10 - others % 10) % 10;
    TermsDiffer(d, Inverse(r, i), i);
    FillsTheSum(others, Term(d, i), r);
  }

  /** Whatever the other digits, exactly one digit at place `k` makes the number acceptable. */
  lemma ExactlyOneDigitFits(ds: seq<Digit>, k: nat) returns (fit: Digit)
    requires 13 <= |ds| <= 19 && k < |ds|
    ensures forall d: Digit :: Fits(ds, k, d) <==> d == fit
  {
    var i := |ds| - 1 - k;
    var others := LuhnSum(ds) - Term(ds[k], i);
    fit := Inverse((10 - others % 10) % 10, i);
    forall d: Digit ensures Fits(ds, k, d) <==> d == fit {
      FitsIff(ds, k, d);
      OneTermCompletes(others, i, d);
    }
  }

  lemma LuhnSumSwap(ds: seq<Digit>, k: nat)
    requires k + 1 < |ds|
    ensures var i := |ds| - 2 - k;
            LuhnSum(ds[k := ds[k + 1]][k + 1 := ds[k]]) + Term(ds[k], i + 1) + Term(ds[k + 1], i)
            == LuhnSum(ds) + Term(ds[k + 1], i + 1) + Term(ds[k], i)
  {
    LuhnSumUpdate(ds, k, ds[k + 1]);
    LuhnSumUpdate(ds[k := ds[k + 1]], k + 1, ds[k]);
  }

  lemma TermsSwapped(a: Digit, b: Digit, i: nat)
    ensures (Term(b, i + 1) + Term(a, i) - Term(a, i + 1) - Term(b, i)) % 10 == 0
            <==> a == b || (a == 0 && b == 9) || (a == 9 && b == 0)
  {
  }

  /** Swapping two adjacent digits of an acceptable number goes unnoticed exactly when they are
      equal, or are 0 and 9. */
  lemma SwapIsMissedIff(ds: seq<Digit>, k: nat)
    requires LuhnAccepts(ds) && k + 1 < |ds|
    ensures LuhnAccepts(ds[k := ds[k + 1]][k + 1 := ds[k]])
            <==> ds[k] == ds[k + 1] || (ds[k] == 0 && ds[k + 1] == 9) || (ds[k] == 9 && ds[k + 1] == 0)
  {
    hide Term, LuhnSum;
    LuhnSumSwap(ds, k);
    TermsSwapped(ds[k], ds[k + 1], |ds| - 2 - k);
  }

  /** The digits of one character. */
  function Own(c: char): seq<Digit> { if IsDigit(c) then [DigitOf(c)] else [] }

  lemma DigitsFirst(c: char, rest: string)
    ensures Digits([c] + rest) == Own(c) + Digits(rest)
  {
    assert ([c] + rest)[1..] == rest;
  }

  lemma {:induction false} DigitsUpdate(text: string, i: nat, c: char)
    requires i < |text| && IsDigit(text[i]) && IsDigit(c)
    ensures var k := |Digits(text[..i])|;
            && k < |Digits(text)| && Digits(text)[k] == DigitOf(text[i])
            && Digits(text[i := c]) == Digits(text)[k := DigitOf(c)]
  {
    hide Digits;
    var first, rest := text[0], text[1..];
    assert text == [first] + rest;
    DigitsFirst(first, rest);
    if i == 0 {
      assert text[i := c] == [c] + rest && text[..i] == "";
      DigitsFirst(c, rest);
      NoDigits();
    } else {
      assert text[i := c] == [first] + rest[i - 1 := c] && text[..i] == [first] + rest[..i - 1];
      DigitsFirst(first, rest[i - 1 := c]);
      DigitsFirst(first, rest[..i - 1]);
      DigitsUpdate(rest, i - 1, c);
    }
  }

  lemma NoDigits()
    ensures Digits("") == []
  {
  }

  /** In the text itself: an accepted number with one digit changed is rejected. */
  lemma LuhnNoticesAChangedDigit(text: string, i: nat, c: char)
    requires LuhnAccepts(Digits(text)) && i < |text|
    requires IsDigit(text[i]) && IsDigit(c) && c != text[i]
    ensures !LuhnAccepts(Digits(text[i := c]))
  {
    hide Term, LuhnSum, Digits;
    DigitsUpdate(text, i, c);
    var ds, k := Digits(text), |Digits(text[..i])|;
    LuhnSumUpdate(ds, k, DigitOf(c));
    TermsDiffer(ds[k], DigitOf(c), |ds| - 1 - k);
    NotBothMultiples(LuhnSum(ds), LuhnSum(ds[k := DigitOf(c)]), Term(ds[k], |ds| - 1 - k),
                     Term(DigitOf(c), |ds| - 1 - k));
  }

  lemma NotBothMultiples(total: nat, changed: nat, a: nat, b: nat)
    requires changed + a == total + b && a % 10 != b % 10
    ensures !(total % 10 == 0 && changed % 10 == 0)
  {
  }

  // ---------- IBAN ----------

  /** `int(ch, 36)` */
  function Base36(c: char): (v: Option<nat>)
    ensures v.Some? ==> v.value < 36
  {
    if IsDigit(c) then Some(DigitOf(c))
    else if 'a' <= c <= 'z' then Some(c as int - 'a' as int + 10)
    else if 'A' <= c <= 'Z' then Some(c as int - 'A' as int + 10)
    else None
  }

  /** `str(v)` as digits */
  function DecimalDigits(v: nat): seq<Digit>
    requires v < 36
  {
    if v < 10 then [v] else [v / 10, v % 10]
  }

  /** `int(digits)` */
  function ToInt(ds: seq<Digit>): nat {
    if ds == [] then 0 else ToInt(ds[..|ds| - 1]) * 10 + ds[|ds| - 1]
  }

  predicate AllBase36(text: string) { forall i :: 0 <= i < |text| ==> Base36(text[i]).Some? }

  function Joined(text: string): seq<Digit>
    requires AllBase36(text)
  {
    if text == "" then [] else Joined(text[..|text| - 1]) + DecimalDigits(Base36(text[|text| - 1]).value)
  }

  function WithoutSpaces(text: string): (s: string)
    ensures ' ' !in s
  {
    if text == "" then ""
    else (if text[0] == ' ' then "" else [text[0]]) + WithoutSpaces(text[1..])
  }

  /** `compact[4:] + compact[:4]` */
  function Rearranged(compact: string): string
    requires |compact| >= 4
  {
    compact[4..] + compact[..4]
  }

  /** `_iban_ok` */
  predicate IbanOk(candidate: string) {
    var compact := WithoutSpaces(candidate);
    && 15 <= |compact| <= 34
    && AllBase36(Rearranged(compact))
    && ToInt(Joined(Rearranged(compact))) % 97 == 1
  }

  function Pow10(k: nat): nat { if k == 0 then 1 else 10 * Pow10(k - 1) }

  lemma Shift(x: int, p: int, y: int, d: int)
    ensures (x * p + y) * 10 + d == x * (10 * p) + (y * 10 + d)
  {
  }

  lemma {:induction false} ToIntAppend(a: seq<Digit>, b: seq<Digit>)
    ensures ToInt(a + b) == ToInt(a) * Pow10(|b|) + ToInt(b)
  {
    if b == [] {
      assert a + b == a;
    } else {
      var n := |b| - 1;
      assert (a + b)[..|a + b| - 1] == a + b[..n];
      ToIntAppend(a, b[..n]);
      Shift(ToInt(a), Pow10(n), ToInt(b[..n]), b[n]);
    }
  }

  lemma {:induction false} JoinedAppend(s: string, t: string)
    requires AllBase36(s) && AllBase36(t)
    ensures AllBase36(s + t) && Joined(s + t) == Joined(s) + Joined(t)
  {
    if t == "" {
      assert s + t == s;
    } else {
      var n := |t| - 1;
      assert (s + t)[..|s + t| - 1] == s + t[..n];
      JoinedAppend(s, t[..n]);
    }
  }

  lemma Bezout(x: int, q: int)
    requires 10 * x == 97 * q
    ensures x % 97 == 0
  {
    assert x == 97 * (68 * q - 7 * x);
  }

  /** 97 is prime to 10: 68 * 10 is 1 modulo 97. */
  lemma TenTimes(x: int)
    requires x % 97 != 0
    ensures (10 * x) % 97 != 0
  {
    if (10 * x) % 97 == 0 {
      Bezout(x, (10 * x) / 97);
    }
  }

  lemma {:induction false} Pow10IsUnit(d: int, k: nat)
    requires d % 97 != 0
    ensures (d * Pow10(k)) % 97 != 0
  {
    if k > 0 {
      Pow10IsUnit(d, k - 1);
      TenTimes(d * Pow10(k - 1));
      assert d * Pow10(k) == 10 * (d * Pow10(k - 1));
    }
  }

  /** Both digits or both letters. */
  predicate SameClass(a: char, b: char) {
    && Base36(a).Some? && Base36(b).Some?
    && (Base36(a).value < 10 <==> Base36(b).value < 10)
  }

  lemma ToIntOne(d: Digit)
    ensures ToInt([d]) == d
  {
    assert [d][..0] == [];
  }

  lemma DecimalDiffers(v: nat, w: nat)
    requires v < 36 && w < 36 && (v < 10 <==> w < 10)
    ensures |DecimalDigits(v)| == |DecimalDigits(w)| && ToInt(DecimalDigits(v)) == v && ToInt(DecimalDigits(w)) == w
  {
    if v >= 10 {
      assert DecimalDigits(v)[..1] == [v / 10] && DecimalDigits(w)[..1] == [w / 10];
      ToIntOne(v / 10);
      ToIntOne(w / 10);
    } else {
      ToIntOne(v);
      ToIntOne(w);
    }
  }

  /** Changing one character to another of its class moves the number by the difference of their
      values times a power of ten. */
  lemma JoinedUpdate(s: string, i: nat, c: char) returns (k: nat)
    requires AllBase36(s) && i < |s| && SameClass(s[i], c)
    ensures AllBase36(s[i := c])
    ensures ToInt(Joined(s[i := c])) - ToInt(Joined(s)) == (Base36(c).value - Base36(s[i]).value) * Pow10(k)
  {
    hide Joined, ToInt, Pow10;
    k := PieceUpdate(s[..i], s[i], c, s[i + 1..]);
    assert s == s[..i] + ([s[i]] + s[i + 1..]) && s[i := c] == s[..i] + ([c] + s[i + 1..]);
  }

  lemma JoinedOne(c: char)
    requires Base36(c).Some?
    ensures AllBase36([c]) && Joined([c]) == DecimalDigits(Base36(c).value)
  {
    assert [c][..0] == "";
  }

  lemma PieceValue(before: string, c: char, after: string)
    requires AllBase36(before) && AllBase36(after) && Base36(c).Some?
    ensures var tail := Joined(after); var mid := DecimalDigits(Base36(c).value);
            && AllBase36(before + ([c] + after))
            && ToInt(Joined(before + ([c] + after)))
               == (ToInt(Joined(before)) * Pow10(|mid|) + ToInt(mid)) * Pow10(|tail|) + ToInt(tail)
  {
    hide Joined, ToInt, DecimalDigits, Base36, Pow10;
    var tail, mid := Joined(after), DecimalDigits(Base36(c).value);
    JoinedOne(c);
    JoinedAppend([c], after);
    JoinedAppend(before, [c] + after);
    assert Joined(before) + (mid + tail) == (Joined(before) + mid) + tail;
    ToIntAppend(Joined(before) + mid, tail);
    ToIntAppend(Joined(before), mid);
  }

  lemma PieceUpdate(before: string, b: char, c: char, after: string) returns (k: nat)
    requires AllBase36(before) && AllBase36(after) && SameClass(b, c)
    ensures AllBase36(before + ([b] + after)) && AllBase36(before + ([c] + after))
    ensures ToInt(Joined(before + ([c] + after))) - ToInt(Joined(before + ([b] + after)))
            == (Base36(c).value - Base36(b).value) * Pow10(k)
  {
    hide Joined, ToInt, DecimalDigits, Base36, Pow10;
    PieceValue(before, b, after);
    PieceValue(before, c, after);
    DecimalDiffers(Base36(b).value, Base36(c).value);
    k := |Joined(after)|;
    Spread(ToInt(Joined(before)) * Pow10(|DecimalDigits(Base36(b).value)|), Base36(b).value, Base36(c).value, Pow10(k),
           ToInt(Joined(after)));
  }

  lemma Spread(h: int, b: int, c: int, p: int, t: int)
    ensures ((h + c) * p + t) - ((h + b) * p + t) == (c - b) * p
  {
  }

  lemma WithoutSpacesFirst(c: char, rest: string)
    ensures WithoutSpaces([c] + rest) == (if c == ' ' then "" else [c]) + WithoutSpaces(rest)
  {
    assert ([c] + rest)[1..] == rest;
  }

  lemma NoCharacters()
    ensures WithoutSpaces("") == ""
  {
  }

  lemma {:induction false} WithoutSpacesUpdate(text: string, i: nat, c: char)
    requires i < |text| && text[i] != ' ' && c != ' '
    ensures var k := |WithoutSpaces(text[..i])|; var s := WithoutSpaces(text);
            k < |s| && s[k] == text[i] && WithoutSpaces(text[i := c]) == s[k := c]
  {
    hide WithoutSpaces;
    var first, rest := text[0], text[1..];
    assert text == [first] + rest;
    WithoutSpacesFirst(first, rest);
    if i == 0 {
      assert text[i := c] == [c] + rest && text[..i] == "";
      WithoutSpacesFirst(c, rest);
      NoCharacters();
    } else {
      assert text[i := c] == [first] + rest[i - 1 := c] && text[..i] == [first] + rest[..i - 1];
      WithoutSpacesFirst(first, rest[i - 1 := c]);
      WithoutSpacesFirst(first, rest[..i - 1]);
      WithoutSpacesUpdate(rest, i - 1, c);
    }
  }

  lemma RearrangedUpdate(compact: string, k: nat, c: char) returns (j: nat)
    requires 4 <= |compact| && k < |compact|
    ensures j < |Rearranged(compact)| && Rearranged(compact)[j] == compact[k]
    ensures Rearranged(compact[k := c]) == Rearranged(compact)[j := c]
  {
    j := if k >= 4 then k - 4 else |compact| - 4 + k;
  }

  lemma StepsOf97(before: int, step: int)
    requires before % 97 == 1 && step % 97 != 0
    ensures (before + step) % 97 != 1
  {
  }

  lemma NumberChanges(before: int, now: int, d: int, k: nat)
    requires before % 97 == 1 && now - before == d * Pow10(k) && d % 97 != 0
    ensures now % 97 != 1
  {
    hide Pow10;
    Pow10IsUnit(d, k);
    StepsOf97(before, now - before);
  }

  /** In the text itself, on either side of the rotation: an accepted number with one digit changed
      to another digit, or one letter to another letter, is rejected. */
  lemma IbanNoticesAChangedCharacter(text: string, i: nat, c: char)
    requires IbanOk(text) && i < |text| && SameClass(text[i], c) && Base36(text[i]) != Base36(c)
    ensures !IbanOk(text[i := c])
  {
    hide Joined, ToInt, WithoutSpaces, Rearranged, Pow10;
    WithoutSpacesUpdate(text, i, c);
    var compact, k := WithoutSpaces(text), |WithoutSpaces(text[..i])|;
    var j := RearrangedUpdate(compact, k, c);
    var r := Rearranged(compact);
    var p := JoinedUpdate(r, j, c);
    NumberChanges(ToInt(Joined(r)), ToInt(Joined(r[j := c])), Base36(c).value - Base36(text[i]).value, p);
  }
}
