/** Stashing fenced code blocks behind placeholders and restoring them
    (ghostchimera/chimera_pilot/context_compressor.py). */
module CodeBlocks {
  import opened Wrappers

  const FENCE := "```"
  const WORD := "GHOST_CODE_BLOCK"

  predicate OccursAt(text: string, w: string, j: nat) {
    j + |w| <= |text| && forall k :: 0 <= k < |w| ==> text[j + k] == w[k]
  }

  ghost predicate OccursIn(text: string, w: string) { exists j: nat :: OccursAt(text, w, j) }

  /** The first fence from `from` on. */
  function FindFence(text: string, from: nat): (at: Option<nat>)
    requires from <= |text|
    ensures at.Some? ==> from <= at.value && OccursAt(text, FENCE, at.value)
    ensures at.Some? ==> forall j: nat :: from <= j < at.value ==> !OccursAt(text, FENCE, j)
    ensures at.None? ==> forall j: nat :: from <= j ==> !OccursAt(text, FENCE, j)
    decreases |text| - from
  {
    if from + 3 > |text| then None
    else if OccursAt(text, FENCE, from) then Some(from)
    else FindFence(text, from + 1)
  }

  /** The first match of a fence, as little text as possible, and a fence: where it starts and ends. */
  function FindBlock(text: string): (at: Option<(nat, nat)>)
    ensures at.Some? ==> at.value.0 + 6 <= at.value.1 <= |text|
  {
    var open := FindFence(text, 0);
    if open.None? then None
    else
      var close := FindFence(text, open.value + 3);
      if close.None? then None else Some((open.value, close.value + 3))
  }

  /** Decimal digits, as `str` prints a number. */
  function Decimal(n: nat): (s: string)
    ensures s != "" && forall i :: 0 <= i < |s| ==> '0' <= s[i] <= '9'
  {
    var last := [(n % 10) as char + '0'];
    if n < 10 then last else Decimal(n / 10) + last
  }

  function Placeholder(i: nat): (p: string)
    ensures |p| == |WORD| + |Decimal(i)| + 5
  {
    "__" + WORD + "_" + Decimal(i) + "__"
  }

  datatype Stashed = Stashed(text: string, blocks: seq<string>)

  /** Blocks are numbered from `k`. */
  function Stash(text: string, k: nat): Stashed
    decreases |text|
  {
    var at := FindBlock(text);
    if at.None? then Stashed(text, [])
    else
      var (start, end) := at.value;
      var rest := Stash(text[end..], k + 1);
      Stashed(text[..start] + (Placeholder(k) + rest.text), [text[start..end]] + rest.blocks)
  }

  /** `str.replace`, for a non-empty `w` */
  function Replace(text: string, w: string, put: string): string
    requires w != ""
    decreases |text|
  {
    if |text| < |w| then text
    else if OccursAt(text, w, 0) then put + Replace(text[|w|..], w, put)
    else [text[0]] + Replace(text[1..], w, put)
  }

  function Restore(text: string, blocks: seq<string>, k: nat): string
    decreases |blocks|
  {
    if blocks == [] then text
    else Restore(Replace(text, Placeholder(k), blocks[0]), blocks[1..], k + 1)
  }

  /** What has been written so far, followed by what the rest stashes to, is the whole. */
  predicate Continues(text: string, stashed: string, blocks: seq<string>, rest: string) {
    var more := Stash(rest, |blocks|);
    Stash(text, 0) == Stashed(stashed + more.text, blocks + more.blocks)
  }

  lemma ContinuesPast(text: string, stashed: string, blocks: seq<string>, rest: string)
    requires Continues(text, stashed, blocks, rest)
    ensures var at := FindBlock(rest);
            if at.None? then Stash(text, 0) == Stashed(stashed + rest, blocks)
            else Continues(text, stashed + rest[..at.value.0] + Placeholder(|blocks|),
                           blocks + [rest[at.value.0..at.value.1]], rest[at.value.1..])
  {
    hide Placeholder, FindBlock;
    var at := FindBlock(rest);
    if at.None? {
      assert blocks + [] == blocks;
    } else {
      var (start, end) := at.value;
      var more := Stash(rest[end..], |blocks| + 1);
      var p := Placeholder(|blocks|);
      assert stashed + (rest[..start] + (p + more.text)) == (stashed + rest[..start] + p) + more.text;
      assert blocks + ([rest[start..end]] + more.blocks) == (blocks + [rest[start..end]]) + more.blocks;
    }
  }

  /** `_stash_code_blocks`: the substitution calls back for each match, which appends the block. */
  method StashCodeBlocks(text: string) returns (stashed: string, blocks: seq<string>)
    ensures Stashed(stashed, blocks) == Stash(text, 0)
  {
    hide Placeholder, FindBlock, Stash, Continues;
    stashed, blocks := "", [];
    var rest := text;
    var at := FindBlock(rest);
    NothingWritten(text);
    while at.Some?
      invariant at == FindBlock(rest) && Continues(text, stashed, blocks, rest)
      decreases |rest|
    {
      ContinuesPast(text, stashed, blocks, rest);
      var (start, end) := at.value;
      stashed := stashed + rest[..start] + Placeholder(|blocks|);
      blocks := blocks + [rest[start..end]];
      rest := rest[end..];
      at := FindBlock(rest);
    }
    ContinuesPast(text, stashed, blocks, rest);
    stashed := stashed + rest;
  }

  lemma NothingWritten(text: string)
    ensures Continues(text, "", [], text)
  {
    hide Stash;
    var s := Stash(text, 0);
    assert "" + s.text == s.text && [] + s.blocks == s.blocks;
  }

  /** `_restore_code_blocks` */
  method RestoreCodeBlocks(text: string, blocks: seq<string>) returns (restored: string)
    ensures restored == Restore(text, blocks, 0)
  {
    restored := text;
    for index := 0 to |blocks|
      invariant Restore(text, blocks, 0) == Restore(restored, blocks[index..], index)
    {
      assert blocks[index..][0] == blocks[index] && blocks[index..][1..] == blocks[index + 1..];
      restored := Replace(restored, Placeholder(index), blocks[index]);
    }
  }

  // ---------- placeholders ----------

  function Value(s: string): nat
    requires forall i :: 0 <= i < |s| ==> '0' <= s[i] <= '9'
  {
    if s == "" then 0 else Value(s[..|s| - 1]) * 10 + (s[|s| - 1] - '0') as nat
  }

  lemma {:induction false} DecimalIsReadBack(n: nat)
    ensures Value(Decimal(n)) == n
  {
    var s := Decimal(n);
    var last := [(n % 10) as char + '0'];
    if n < 10 {
      assert s[..|s| - 1] == "";
    } else {
      DecimalIsReadBack(n / 10);
      assert s == Decimal(n / 10) + last && s[..|s| - 1] == Decimal(n / 10);
    }
  }

  /** The characters of a placeholder. */
  lemma PlaceholderChars(i: nat)
    ensures var p, d := Placeholder(i), Decimal(i);
            && p[0] == '_' && p[1] == '_' && OccursAt(p, WORD, 2)
            && (forall k :: 3 <= k < |p| ==> p[k] != 'G')
            && (forall k :: 0 <= k < |d| ==> p[19 + k] == d[k])
            && p[19 + |d|] == '_'
  {
    var p, d := Placeholder(i), Decimal(i);
    assert p == (("__" + WORD) + "_") + (d + "__");
  }

  /** Two placeholders at the same place have the same number. */
  lemma PlaceholdersDiffer(text: string, i: nat, m: nat, j: nat)
    requires OccursAt(text, Placeholder(i), j) && OccursAt(text, Placeholder(m), j)
    ensures i == m
  {
    hide Placeholder, Decimal;
    NumberAt(text, i, j);
    NumberAt(text, m, j);
    var a, b := Decimal(i), Decimal(m);
    assert |a| == |b|;
    forall k | 0 <= k < |a| ensures a[k] == b[k] { assert text[j + 19 + k] == a[k]; }
    assert a == b;
    DecimalIsReadBack(i);
    DecimalIsReadBack(m);
  }

  /** Where a placeholder stands, the text has its digits and then an underscore. */
  lemma NumberAt(text: string, i: nat, j: nat)
    requires OccursAt(text, Placeholder(i), j)
    ensures var d := Decimal(i);
            && j + 19 + |d| < |text| && text[j + 19 + |d|] == '_'
            && (forall x :: j + 19 <= x < j + 19 + |d| ==> '0' <= text[x] <= '9' && text[x] == d[x - j - 19])
  {
    hide Placeholder, Decimal;
    PlaceholderChars(i);
    var p, d := Placeholder(i), Decimal(i);
    assert text[j + (19 + |d|)] == p[19 + |d|];
    forall x | j + 19 <= x < j + 19 + |d| ensures '0' <= text[x] <= '9' && text[x] == d[x - j - 19] {
      assert text[j + (x - j)] == p[x - j] && p[19 + (x - j - 19)] == d[x - j - 19];
    }
  }

  // ---------- the word occurs only in placeholders ----------

  lemma WordHasNoDoubleUnderscore()
    ensures forall x :: 0 <= x < |WORD| && WORD[x] == '_' ==> x + 1 < |WORD| && WORD[x + 1] != '_'
  {
  }

  lemma OccursByPlace(text: string, w: string, j: nat)
    requires OccursAt(text, w, j)
    ensures forall x :: j <= x < j + |w| ==> x < |text| && text[x] == w[x - j]
  {
    forall x | j <= x < j + |w| ensures x < |text| && text[x] == w[x - j] { assert text[j + (x - j)] == w[x - j]; }
  }

  /** The word does not straddle the border between a text and two underscores. */
  lemma NoStraddle(a: string, b: string, j: nat)
    requires |b| >= 2 && b[0] == '_' && b[1] == '_' && OccursAt(a + b, WORD, j)
    ensures j + |WORD| <= |a| || j >= |a|
  {
    hide OccursAt;
    assert (a + b)[|a|] == '_' && (a + b)[|a| + 1] == '_';
    OccursByPlace(a + b, WORD, j);
    WordHasNoDoubleUnderscore();
  }

  lemma OccursInFront(a: string, b: string, w: string, j: nat)
    requires OccursAt(a + b, w, j) && j + |w| <= |a|
    ensures OccursIn(a, w)
  {
    forall k | 0 <= k < |w| ensures a[j + k] == w[k] { assert (a + b)[j + k] == w[k]; }
    assert OccursAt(a, w, j);
  }

  /** After text without the word, the first place where the word can be is in the placeholder. */
  lemma WordInFirstPiece(a: string, i: nat, more: string, j: nat)
    requires !OccursIn(a, WORD)
    requires OccursAt(a + (Placeholder(i) + more), WORD, j)
    ensures j == |a| + 2 || j >= |a| + |Placeholder(i)|
  {
    hide Placeholder;
    var p := Placeholder(i);
    PlaceholderChars(i);
    NoStraddle(a, p + more, j);
    if j + |WORD| <= |a| { OccursInFront(a, p + more, WORD, j); }
    if |a| <= j < |a| + |p| { StartsWithG(a, p, more, j); }
  }

  lemma StartsWithG(a: string, p: string, more: string, j: nat)
    requires OccursAt(a + (p + more), WORD, j) && |a| <= j < |a| + |p|
    ensures p[j - |a|] == 'G'
  {
    assert (a + (p + more))[j + 0] == WORD[0];
  }

  lemma OccursInTail(a: string, b: string, w: string, j: nat)
    requires OccursAt(a + b, w, j) && j >= |a|
    ensures OccursAt(b, w, j - |a|)
  {
    forall k | 0 <= k < |w| ensures b[j - |a| + k] == w[k] { assert (a + b)[j + k] == w[k]; }
  }

  lemma OccursAfter(a: string, b: string, w: string, j: nat)
    requires OccursAt(b, w, j)
    ensures OccursAt(a + b, w, |a| + j)
  {
    forall k | 0 <= k < |w| ensures (a + b)[|a| + j + k] == w[k] { assert b[j + k] == w[k]; }
  }

  lemma OccursInSecondTail(a: string, p: string, b: string, w: string, j: nat)
    requires OccursAt(a + (p + b), w, j) && j >= |a| + |p|
    ensures OccursAt(b, w, j - |a| - |p|)
  {
    OccursInTail(a, p + b, w, j);
    OccursInTail(p, b, w, j - |a|);
  }

  lemma OccursAfterTwo(a: string, p: string, b: string, w: string, j: nat)
    requires OccursAt(b, w, j)
    ensures OccursAt(a + (p + b), w, |a| + |p| + j)
  {
    OccursAfter(p, b, w, j);
    OccursAfter(a, p + b, w, |p| + j);
  }

  lemma NotInPiece(text: string, start: nat, end: nat, w: string)
    requires start <= end <= |text| && !OccursIn(text, w)
    ensures !OccursIn(text[start..end], w)
  {
    forall j: nat ensures !OccursAt(text[start..end], w, j) {
      if OccursAt(text[start..end], w, j) { PieceOccurs(text, start, end, w, j); }
    }
  }

  lemma PieceOccurs(text: string, start: nat, end: nat, w: string, j: nat)
    requires start <= end <= |text| && OccursAt(text[start..end], w, j)
    ensures OccursAt(text, w, start + j)
  {
    forall k | 0 <= k < |w| ensures text[start + j + k] == w[k] { assert text[start..end][j + k] == w[k]; }
  }

  /** Wherever the word occurs in stashed text, a placeholder with a number from `k` on stands. */
  lemma {:induction false} WordsArePlaceholders(text: string, k: nat, q: nat) returns (m: nat)
    requires !OccursIn(text, WORD) && OccursAt(Stash(text, k).text, WORD, q)
    ensures m >= k && q >= 2 && OccursAt(Stash(text, k).text, Placeholder(m), q - 2)
    decreases |text|
  {
    hide Placeholder, FindBlock;
    var at := FindBlock(text);
    m := k;
    if at.Some? {
      var (start, end) := at.value;
      var a, p, rest := text[..start], Placeholder(k), text[end..];
      var more := Stash(rest, k + 1).text;
      assert text[0..start] == a && text[end..|text|] == rest;
      NotInPiece(text, 0, start, WORD);
      NotInPiece(text, end, |text|, WORD);
      WordInFirstPiece(a, k, more, q);
      if q == |a| + 2 {
        OccursAtStart(p, more);
        OccursAfter(a, p + more, p, 0);
      } else {
        OccursInSecondTail(a, p, more, WORD, q);
        m := WordsArePlaceholders(rest, k + 1, q - |a| - |p|);
        OccursAfterTwo(a, p, more, Placeholder(m), q - |a| - |p| - 2);
      }
    }
  }

  lemma OccursAtStart(w: string, b: string)
    ensures OccursAt(w + b, w, 0)
  {
  }

  lemma PlaceholderHoldsWord(text: string, i: nat, j: nat)
    requires OccursAt(text, Placeholder(i), j)
    ensures OccursAt(text, WORD, j + 2)
  {
    hide Placeholder;
    PlaceholderChars(i);
    var p := Placeholder(i);
    forall k | 0 <= k < |WORD| ensures text[j + 2 + k] == WORD[k] { assert text[j + (2 + k)] == p[2 + k] == WORD[k]; }
  }

  /** Stashed text holds no placeholder with a lower number than its first. */
  lemma NoEarlierPlaceholder(text: string, k: nat, i: nat, j: nat)
    requires !OccursIn(text, WORD) && i < k
    ensures !OccursAt(Stash(text, k).text, Placeholder(i), j)
  {
    hide Placeholder, Stash;
    var t := Stash(text, k).text;
    if OccursAt(t, Placeholder(i), j) {
      PlaceholderHoldsWord(t, i, j);
      var m := WordsArePlaceholders(text, k, j + 2);
      PlaceholdersDiffer(t, i, m, j);
    }
  }

  // ---------- replacing ----------

  lemma {:induction false} ReplaceAbsent(text: string, w: string, put: string)
    requires w != "" && forall j: nat :: !OccursAt(text, w, j)
    ensures Replace(text, w, put) == text
    decreases |text|
  {
    if |text| >= |w| {
      assert text == [text[0]] + text[1..];
      forall j: nat ensures !OccursAt(text[1..], w, j) {
        if OccursAt(text[1..], w, j) { OccursAfter([text[0]], text[1..], w, j); }
      }
      ReplaceAbsent(text[1..], w, put);
    }
  }

  lemma {:induction false} ReplaceFirst(a: string, w: string, b: string, put: string)
    requires w != "" && forall j: nat :: j < |a| ==> !OccursAt(a + (w + b), w, j)
    ensures Replace(a + (w + b), w, put) == a + (put + Replace(b, w, put))
    decreases |a|
  {
    var text := a + (w + b);
    if a == "" {
      assert text == w + b && text[|w|..] == b;
      OccursAtStart(w, b);
    } else {
      var a' := a[1..];
      assert text[1..] == a' + (w + b) && text == [text[0]] + text[1..] && a == [text[0]] + a';
      forall j: nat | j < |a'| ensures !OccursAt(a' + (w + b), w, j) {
        if OccursAt(a' + (w + b), w, j) { OccursAfter([text[0]], text[1..], w, j); }
      }
      ReplaceFirst(a', w, b, put);
      assert a + (put + Replace(b, w, put)) == [text[0]] + (a' + (put + Replace(b, w, put)));
    }
  }

  // ---------- the round trip ----------

  /** One turn of the restoring loop puts one block back. */
  lemma OneBlockBack(done: string, block: string, rest: string, k: nat)
    requires !OccursIn(done, WORD) && !OccursIn(rest, WORD)
    ensures var more := Stash(rest, k + 1).text;
            Replace(done + (Placeholder(k) + more), Placeholder(k), block) == done + (block + more)
  {
    hide Placeholder, Stash;
    var p, more := Placeholder(k), Stash(rest, k + 1).text;
    var text := done + (p + more);
    forall j: nat | j < |done| ensures !OccursAt(text, p, j) {
      if OccursAt(text, p, j) {
        PlaceholderHoldsWord(text, k, j);
        WordInFirstPiece(done, k, more, j + 2);
      }
    }
    forall j: nat ensures !OccursAt(more, p, j) { NoEarlierPlaceholder(rest, k + 1, k, j); }
    ReplaceFirst(done, p, more, block);
    ReplaceAbsent(more, p, block);
  }

  lemma {:induction false} RestoreUndoesStashFrom(done: string, text: string, k: nat)
    requires !OccursIn(done + text, WORD)
    ensures var s := Stash(text, k);
            Restore(done + s.text, s.blocks, k) == done + text
    decreases |text|
  {
    hide Placeholder, FindBlock, Replace;
    var s, at := Stash(text, k), FindBlock(text);
    if at.Some? {
      var (start, end) := at.value;
      var a, block, rest := text[..start], text[start..end], text[end..];
      var all := done + text;
      var more := Stash(rest, k + 1);
      assert all[0..|done| + start] == done + a && all[|done| + end..|all|] == rest;
      NotInPiece(all, 0, |done| + start, WORD);
      NotInPiece(all, |done| + end, |all|, WORD);
      OneBlockBack(done + a, block, rest, k);
      assert done + s.text == (done + a) + (Placeholder(k) + more.text);
      assert (done + a) + (block + more.text) == ((done + a) + block) + more.text;
      assert ((done + a) + block) + rest == all;
      assert s.blocks[1..] == more.blocks && s.blocks[0] == block;
      RestoreUndoesStashFrom((done + a) + block, rest, k + 1);
    }
  }

  /** For every text without the placeholder word, and any number of blocks, restoring the stashed
      text gives the text back. */
  lemma RestoreUndoesStash(text: string)
    requires !OccursIn(text, WORD)
    ensures Restore(Stash(text, 0).text, Stash(text, 0).blocks, 0) == text
  {
    hide Stash, Restore;
    assert "" + text == text && "" + Stash(text, 0).text == Stash(text, 0).text;
    RestoreUndoesStashFrom("", text, 0);
  }

  // ---------- why the word must be absent ----------

  const BLOCK := "```x```"

  /** The block after a placeholder is found where it stands. */
  lemma BlockAfterPlaceholder(i: nat)
    ensures var p := Placeholder(i);
            FindBlock(p + BLOCK) == Some((|p|, |p| + |BLOCK|))
  {
    hide Placeholder, FindFence;
    var p := Placeholder(i);
    var text := p + BLOCK;
    NoBackquote(i);
    assert OccursAt(BLOCK, FENCE, 0) && OccursAt(BLOCK, FENCE, 4);
    OccursAfter(p, BLOCK, FENCE, 0);
    OccursAfter(p, BLOCK, FENCE, 4);
    var open := FindFence(text, 0).value;
    assert text[open + 0] == FENCE[0];
    var close := FindFence(text, |p| + 3).value;
    assert text[close + 0] == FENCE[0] && text[|p| + 3] == BLOCK[3];
  }

  lemma NoBackquote(i: nat)
    ensures '`' !in Placeholder(i)
  {
  }

  /** A text that spells out the placeholder of its own block comes back with the block twice. */
  lemma SpelledPlaceholderIsRewritten()
    ensures var text := Placeholder(0) + BLOCK; var s := Stash(text, 0);
            Restore(s.text, s.blocks, 0) == BLOCK + BLOCK != text
  {
    hide Placeholder, FindBlock, Replace;
    var p := Placeholder(0);
    var text := p + BLOCK;
    PlaceholderChars(0);
    BlockAfterPlaceholder(0);
    assert text[..|p|] == p && text[|p|..|p| + |BLOCK|] == BLOCK && text[|p| + |BLOCK|..] == "";
    NoBlockInNothing();
    var s := Stash(text, 0);
    assert s.text == p + (p + "") && s.blocks == [BLOCK];
    ReplaceFirst("", p, p + "", BLOCK);
    ReplaceFirst("", p, "", BLOCK);
    ReplaceNothing(p, BLOCK);
    assert "" + (p + (p + "")) == s.text && "" + (p + "") == p + "";
    assert text[0] == '_' && (BLOCK + BLOCK)[0] == '`';
  }

  lemma NoBlockInNothing()
    ensures FindBlock("") == None && Stash("", 1) == Stashed("", [])
  {
  }

  lemma ReplaceNothing(w: string, put: string)
    requires w != ""
    ensures Replace("", w, put) == ""
  {
  }
}
