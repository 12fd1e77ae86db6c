/** Exactly which texts survive stashing and restoring their code blocks
    (ghostchimera/chimera_pilot/context_compressor.py). */
module RoundTrip {
  import opened Wrappers
  import opened CodeBlocks

  // ---------- where a replacement first shows ----------

  /** The first place from `from` on where `w` occurs. */
  function First(text: string, w: string, from: nat): (at: Option<nat>)
    requires from <= |text|
    ensures at.Some? ==> from <= at.value && OccursAt(text, w, at.value)
    ensures at.Some? ==> forall j: nat :: from <= j < at.value ==> !OccursAt(text, w, j)
    ensures at.None? ==> forall j: nat :: from <= j ==> !OccursAt(text, w, j)
    decreases |text| - from
  {
    if OccursAt(text, w, from) then Some(from)
    else if from == |text| then None
    else First(text, w, from + 1)
  }

  lemma {:induction false} ReplaceKeepsFront(text: string, w: string, put: string, d: nat)
    requires w != "" && d < |text| && forall j: nat :: j <= d ==> !OccursAt(text, w, j)
    ensures var r := Replace(text, w, put); d < |r| && r[..d + 1] == text[..d + 1]
    decreases d
  {
    if |text| >= |w| && d > 0 {
      var tail := text[1..];
      assert [text[0]] + tail == text;
      forall j: nat | j <= d - 1 ensures !OccursAt(tail, w, j) {
        if OccursAt(tail, w, j) { OccursAfter([text[0]], tail, w, j); }
      }
      ReplaceKeepsFront(tail, w, put, d - 1);
      var r := Replace(tail, w, put);
      assert text[..d + 1] == [text[0]] + tail[..d] && ([text[0]] + r)[..d + 1] == [text[0]] + r[..d];
    }
  }

  /** A placeholder, and a text that begins with a backquote to be put for it. */
  predicate Swaps(w: string, put: string) {
    w != "" && w[0] == '_' && '`' !in w && put != "" && put[0] == '`'
  }

  /** Up to a backquote at `d`, or the end, a replacement first shows where the placeholder first
      occurs, and there as a backquote. */
  lemma FirstChange(text: string, w: string, put: string, d: nat) returns (i: nat)
    requires Swaps(w, put) && d <= |text| && (d < |text| ==> text[d] == '`')
    ensures var r := Replace(text, w, put);
            && i <= d && i <= |r| && r[..i] == text[..i]
            && (i < d ==> OccursAt(text, w, i) && i + |w| <= d && i < |r| && r[i] == '`')
            && (i == d < |text| ==> i < |r| && r[i] == '`')
            && (i == d == |text| ==> r == text)
    ensures forall j: nat :: j < i ==> !OccursAt(text, w, j)
    ensures i == d == |text| ==> forall j: nat :: !OccursAt(text, w, j)
  {
    var at := First(text, w, 0);
    if at.None? {
      i := d;
      ReplaceAbsent(text, w, put);
    } else if at.value > d {
      i := d;
      ReplaceKeepsFront(text, w, put, d);
      var r := Replace(text, w, put);
      assert r[..d] == r[..d + 1][..d] && text[..d] == text[..d + 1][..d];
      assert r[d] == r[..d + 1][d];
    } else {
      i := at.value;
      SplitAt(text, w, i);
      if i + |w| > d && d < |text| { BackquoteIsInside(text, w, i, d); }
      ReplaceFirst(text[..i], w, text[i + |w|..], put);
    }
  }

  lemma SplitAt(text: string, w: string, i: nat)
    requires OccursAt(text, w, i)
    ensures text == text[..i] + (w + text[i + |w|..])
  {
    forall k | 0 <= k < |w| ensures text[i..i + |w|][k] == w[k] { assert text[i + k] == w[k]; }
    assert text[i..i + |w|] == w;
    assert text == text[..i] + (text[i..i + |w|] + text[i + |w|..]);
  }

  lemma BackquoteIsInside(text: string, w: string, i: nat, d: nat)
    requires OccursAt(text, w, i) && i <= d < i + |w| && text[d] == '`'
    ensures '`' in w
  {
    assert text[i + (d - i)] == w[d - i];
  }

  /** Occurrences carry over to a text with the same front. */
  lemma OccursInSameFront(text: string, other: string, w: string, i: nat, d: nat)
    requires OccursAt(text, w, i) && i + |w| <= d <= |other| && d <= |text| && text[..d] == other[..d]
    ensures OccursAt(other, w, i)
  {
    forall k | 0 <= k < |w| ensures other[i + k] == w[k] {
      assert text[i + k] == text[..d][i + k] == other[..d][i + k];
    }
  }

  // ---------- placeholders within placeholders ----------

  /** A placeholder can begin inside another only with its last one or two underscores. */
  lemma BeginsWithUnderscores(m: nat, k: nat, x: nat, text: string, q: nat)
    requires OccursAt(text, Placeholder(m), q + x) && x + 2 < |Placeholder(k)|
    requires forall y :: 0 <= y < |Placeholder(k)| && q + y < q + x + 3 ==>
               q + y < |text| && text[q + y] == Placeholder(k)[y]
    ensures x == 0
  {
    hide Placeholder;
    PlaceholderChars(m);
    PlaceholderChars(k);
    var p := Placeholder(m);
    assert p[2 + 0] == WORD[0];
    assert text[q + x + 2] == p[2];
    assert text[q + (x + 2)] == Placeholder(k)[x + 2];
  }

  /** A placeholder without its last one or two underscores holds none. */
  lemma DamagedHoldsNone(m: nat, k: nat, text: string, q: nat, o: nat, x: nat)
    requires |Placeholder(m)| - 2 <= o < |Placeholder(m)| && q + o <= |text|
    requires forall y :: 0 <= y < o ==> text[q + y] == Placeholder(m)[y]
    ensures !(OccursAt(text, Placeholder(k), q + x) && x + |Placeholder(k)| <= o)
  {
    hide Placeholder;
    var w, p := Placeholder(m), Placeholder(k);
    if OccursAt(text, p, q + x) && x + |p| <= o {
      PlaceholderChars(k);
      BeginsWithUnderscores(k, m, x, text, q);
      forall y | 0 <= y < |p| ensures w[y] == p[y] { assert text[q + y] == p[y]; }
      assert OccursAt(w, p, 0) && OccursAt(w, w, 0);
      PlaceholdersDiffer(w, k, m, 0);
    }
  }

  /** The place `o` in stashed text is not in an inserted placeholder, or only in its last two
      underscores. */
  predicate Soft(rest: string, k: nat, o: nat)
    decreases |rest|
  {
    var at := FindBlock(rest);
    if at.None? || o < at.value.0 then true
    else if o < at.value.0 + |Placeholder(k)| then o >= at.value.0 + |Placeholder(k)| - 2
    else Soft(rest[at.value.1..], k + 1, o - at.value.0 - |Placeholder(k)|)
  }

  lemma BeginsAtTheEnd(a: string, k: nat, more: string, m: nat, o: nat)
    requires m != k && |a| <= o && OccursAt(a + (Placeholder(k) + more), Placeholder(m), o)
    ensures o >= |a| + |Placeholder(k)| - 2
  {
    hide Placeholder, OccursAt;
    var p := Placeholder(k);
    var t := a + (p + more);
    assert forall y :: 0 <= y < |p| ==> t[|a| + y] == p[y];
    if o < |a| + |p| - 2 {
      BeginsWithUnderscores(m, k, o - |a|, t, |a|);
      OccursAtStart(p, more);
      OccursAfter(a, p + more, p, 0);
      PlaceholdersDiffer(t, m, k, |a|);
    }
  }

  lemma {:induction false} PlaceholdersBeginSoftly(rest: string, k: nat, m: nat, o: nat)
    requires m < k && OccursAt(Stash(rest, k).text, Placeholder(m), o)
    ensures Soft(rest, k, o)
    decreases |rest|
  {
    hide Placeholder, FindBlock, OccursAt;
    var at := FindBlock(rest);
    if at.Some? && o >= at.value.0 {
      var (start, end) := at.value;
      var a, p, more := rest[..start], Placeholder(k), Stash(rest[end..], k + 1).text;
      BeginsAtTheEnd(a, k, more, m, o);
      if o >= start + |p| {
        OccursInSecondTail(a, p, more, Placeholder(m), o);
        PlaceholdersBeginSoftly(rest[end..], k + 1, m, o - start - |p|);
      }
    }
  }

  // ---------- the exact condition ----------

  /** The placeholder between `a` and `b` is the one that is replaced, and the only one. */
  ghost predicate OnlyThere(a: string, w: string, b: string) {
    && (forall j: nat :: j < |a| ==> !OccursAt(a + (w + b), w, j))
    && (forall j: nat :: !OccursAt(b, w, j))
  }

  /** Each block's placeholder occurs neither in the text up to its block, the border with the
      placeholder included, nor in what the rest of the text is stashed to. */
  ghost predicate OnlyInserted(done: string, rest: string, k: nat)
    decreases |rest|
  {
    var at := FindBlock(rest);
    at.Some? ==>
      var (start, end) := at.value;
      && OnlyThere(done + rest[..start], Placeholder(k), Stash(rest[end..], k + 1).text)
      && OnlyInserted(done + rest[..start] + rest[start..end], rest[end..], k + 1)
  }

  /** The two texts are the same, or first differ at `d`, a backquote for an underscore. */
  predicate Veers(text: string, ideal: string, d: nat) {
    && d <= |text| && d <= |ideal| && text[..d] == ideal[..d]
    && ((d == |text| && d == |ideal|) || (d < |text| && d < |ideal| && text[d] == '`' && ideal[d] == '_'))
  }

  /** At `q`, where the text should have a backquote, it has a placeholder that lost its end. */
  predicate Lost(text: string, ideal: string, q: nat, m: nat, o: nat) {
    && |Placeholder(m)| - 2 <= o < |Placeholder(m)| && q + o < |text| && q < |ideal|
    && text[..q] == ideal[..q] && ideal[q] == '`' && text[q + o] == '`'
    && forall y :: 0 <= y < o ==> text[q + y] == Placeholder(m)[y]
  }

  lemma PlaceholderSwaps(k: nat, block: string)
    requires block != "" && block[0] == '`'
    ensures Swaps(Placeholder(k), block)
  {
    hide Placeholder;
    PlaceholderChars(k);
    NoBackquote(k);
  }

  lemma BlocksBeginWithFences(text: string)
    ensures var at := FindBlock(text); at.Some? ==> text[at.value.0] == '`'
  {
    var at := FindFence(text, 0);
    if at.Some? { assert text[at.value + 0] == FENCE[0]; }
  }

  /** The pieces of one step. */
  lemma Pieces(done: string, rest: string, k: nat)
    requires FindBlock(rest).Some?
    ensures var (start, end) := FindBlock(rest).value;
            var a, block, more := done + rest[..start], rest[start..end], Stash(rest[end..], k + 1);
            && Swaps(Placeholder(k), block)
            && done + Stash(rest, k).text == a + (Placeholder(k) + more.text)
            && Stash(rest, k).blocks == [block] + more.blocks
            && done + rest == (a + block) + rest[end..]
  {
    hide Placeholder, FindBlock, Swaps;
    BlocksBeginWithFences(rest);
    var (start, end) := FindBlock(rest).value;
    PlaceholderSwaps(k, rest[start..end]);
    assert rest == rest[..start] + rest[start..end] + rest[end..];
  }

  /** A change at a place of the original that had an underscore. */
  lemma VeersInFront(text: string, changed: string, a: string, tail: string, new_: string, i: nat)
    requires i < |a| && i <= |text| && text[..i] == (a + tail)[..i] && a[i] == '_'
    requires i < |changed| && changed[..i] == text[..i] && changed[i] == '`'
    ensures Veers(changed, a + new_, i)
  {
    assert (a + tail)[..i] == a[..i] == (a + new_)[..i];
  }

  lemma OccurrenceBeginsWithUnderscore(text: string, k: nat, i: nat)
    requires OccursAt(text, Placeholder(k), i)
    ensures i < |text| && text[i] == '_'
  {
    hide Placeholder;
    PlaceholderChars(k);
    assert text[i + 0] == Placeholder(k)[0];
  }

  /** A lost placeholder is never found again: a later step can only spoil the text before it. */
  lemma {:induction false} LostForever(text: string, done: string, rest: string, k: nat, q: nat, m: nat, o: nat)
    requires Lost(text, done + rest, q, m, o) && q < |done|
    ensures Restore(text, Stash(rest, k).blocks, k) != done + rest
    decreases |rest|, 0
  {
    hide Placeholder, FindBlock, OccursAt, Soft, OnlyInserted, Replace, Swaps;
    PlaceholderChars(m);
    if FindBlock(rest).Some? {
      Pieces(done, rest, k);
      var (start, end) := FindBlock(rest).value;
      var a, block, more := done + rest[..start], rest[start..end], Stash(rest[end..], k + 1);
      var w := Placeholder(k);
      var i := FirstChange(text, w, block, q + o);
      var changed := Replace(text, w, block);
      if i < q {
        OccurrenceBeginsWithUnderscore(text, k, i);
        assert text[i] == text[..q][i] == (done + rest)[..q][i] == (a + block)[i];
        assert text[..i] == text[..q][..i] == (done + rest)[..q][..i];
        VeersInFront(text, changed, a + block, rest[end..], more.text, i);
        Follow(changed, a + block, rest[end..], k + 1, i);
      } else if i < q + o {
        DamagedHoldsNone(m, k, text, q, o, i - q);
      } else {
        StillLost(text, changed, done + rest, q, m, o);
        LostForever(changed, a + block, rest[end..], k + 1, q, m, o);
      }
    }
  }

  lemma StillLost(text: string, changed: string, ideal: string, q: nat, m: nat, o: nat)
    requires Lost(text, ideal, q, m, o)
    requires q + o < |changed| && changed[..q + o] == text[..q + o] && changed[q + o] == '`'
    ensures Lost(changed, ideal, q, m, o)
  {
    hide Placeholder;
    assert changed[..q] == changed[..q + o][..q] == text[..q + o][..q] == text[..q];
    forall y | 0 <= y < o ensures changed[q + y] == Placeholder(m)[y] {
      assert changed[q + y] == changed[..q + o][q + y] == text[..q + o][q + y];
    }
  }

  /** A place inside the placeholder at hand: its end is lost. */
  lemma LosesTheEnd(text: string, changed: string, a: string, k: nat, block: string, more: string, rest: string, d: nat)
    requires Veers(text, a + (Placeholder(k) + more), d) && block != "" && block[0] == '`'
    requires |a| + |Placeholder(k)| - 2 <= d < |a| + |Placeholder(k)|
    requires d < |changed| && changed[..d] == text[..d] && changed[d] == '`'
    ensures Lost(changed, (a + block) + rest, |a|, k, d - |a|)
  {
    hide Placeholder;
    var w, q := Placeholder(k), |a|;
    var ideal := a + (w + more);
    assert changed[..q] == changed[..d][..q] == ideal[..d][..q] == a;
    assert ((a + block) + rest)[..q] == a;
    forall y | 0 <= y < d - q ensures changed[q + y] == w[y] {
      assert changed[q + y] == changed[..d][q + y] == ideal[..d][q + y] == ideal[q + y];
    }
  }

  lemma SameFront(text: string, ideal: string, d: nat, n: nat)
    requires n <= d <= |text| && d <= |ideal| && text[..d] == ideal[..d]
    ensures text[..n] == ideal[..n] && text[n..][..d - n] == ideal[n..][..d - n]
  {
    assert text[..n] == text[..d][..n] && ideal[..n] == ideal[..d][..n];
    assert text[n..][..d - n] == text[..d][n..] && ideal[n..][..d - n] == ideal[..d][n..];
  }

  /** A text that has not veered before the end of the placeholder at hand has it in place. */
  lemma StillInPlace(text: string, a: string, w: string, more: string, d: nat)
    requires Veers(text, a + (w + more), d) && |a| + |w| <= d
    ensures OccursAt(text, w, |a|) && |a| + |w| <= |text|
    ensures var tail := text[|a| + |w|..];
            text == a + (w + tail) && Veers(tail, more, d - |a| - |w|)
  {
    var ideal, n := a + (w + more), |a| + |w|;
    SameFront(text, ideal, d, n);
    assert ideal[..n] == a + w && ideal[n..] == more;
    assert text == text[..n] + text[n..];
    assert text == a + (w + text[n..]);
    OccursAtStart(w, text[n..]);
    OccursAfter(a, w + text[n..], w, 0);
  }

  lemma VeersBehind(front: string, text: string, ideal: string, d: nat)
    requires Veers(text, ideal, d)
    ensures Veers(front + text, front + ideal, |front| + d)
  {
    assert (front + text)[..|front| + d] == front + text[..d];
    assert (front + ideal)[..|front| + d] == front + ideal[..d];
  }

  /** Behind the placeholder that is put back, the replacement first shows where it occurs in what
      the rest is stashed to. */
  lemma TailChange(tail: string, rest: string, k: nat, block: string, e: nat) returns (i: nat)
    requires Swaps(Placeholder(k), block)
    requires var more := Stash(rest, k + 1).text;
             Veers(tail, more, e) && (e < |more| ==> Soft(rest, k + 1, e))
    ensures var w, more := Placeholder(k), Stash(rest, k + 1).text;
            && Veers(Replace(tail, w, block), more, i) && (i < |more| ==> Soft(rest, k + 1, i))
            && (e < |more| ==> i < |more|)
            && (e == |more| ==> (i == e <==> forall j: nat :: !OccursAt(more, w, j)))
  {
    hide Placeholder, OccursAt, Replace, Stash, Soft;
    var w, more := Placeholder(k), Stash(rest, k + 1).text;
    i := FirstChange(tail, w, block, e);
    if i < e {
      OccursInSameFront(tail, more, w, i, e);
      OccurrenceBeginsWithUnderscore(more, k, i);
      PlaceholdersBeginSoftly(rest, k + 1, k, i);
      assert tail[..i] == tail[..e][..i] == more[..e][..i] == more[..i];
    } else if e == |more| {
      assert tail == tail[..e] == more[..e] == more;
    }
  }

  lemma OneStep(text: string, done: string, rest: string, k: nat)
    requires FindBlock(rest).Some?
    ensures var (start, end) := FindBlock(rest).value;
            var a, w, block, more := done + rest[..start], Placeholder(k), rest[start..end], Stash(rest[end..], k + 1);
            && Restore(text, Stash(rest, k).blocks, k) == Restore(Replace(text, w, block), more.blocks, k + 1)
            && (OnlyInserted(done, rest, k) <==>
                  OnlyThere(a, w, more.text) && OnlyInserted(a + block, rest[end..], k + 1))
  {
    hide Placeholder, FindBlock, Replace, OnlyThere;
    var (start, end) := FindBlock(rest).value;
    var more := Stash(rest[end..], k + 1);
    assert ([rest[start..end]] + more.blocks)[1..] == more.blocks;
  }

  /** Soft places, seen from the end of the placeholder at hand. */
  lemma SoftStep(rest: string, k: nat, o: nat)
    requires FindBlock(rest).Some? && Soft(rest, k, o) && o >= FindBlock(rest).value.0
    ensures var (start, end) := FindBlock(rest).value;
            && o >= start + |Placeholder(k)| - 2
            && (o >= start + |Placeholder(k)| ==> Soft(rest[end..], k + 1, o - start - |Placeholder(k)|))
  {
    hide Placeholder, FindBlock;
  }

  lemma FollowToTheEnd(text: string, done: string, rest: string, k: nat, d: nat)
    requires FindBlock(rest).None? && Veers(text, done + Stash(rest, k).text, d)
    ensures Restore(text, Stash(rest, k).blocks, k) == done + rest
            <==> d == |done + Stash(rest, k).text| && OnlyInserted(done, rest, k)
  {
    hide FindBlock;
    var ideal := done + rest;
    if d == |ideal| { assert text == text[..d] == ideal[..d] == ideal; }
  }

  /** The placeholder occurs before its place: the text veers there, or has veered before. */
  lemma FollowInFront(text: string, a: string, block: string, rest: string, k: nat, d: nat, i: nat)
    requires var w, more := Placeholder(k), Stash(rest, k + 1); var changed := Replace(text, w, block);
             && Veers(text, a + (w + more.text), d) && i < |a| && i <= d
             && (i < d ==> OccursAt(text, w, i))
             && i < |changed| && changed[..i] == text[..i] && changed[i] == '`'
    ensures var w, more := Placeholder(k), Stash(rest, k + 1);
            Restore(Replace(text, w, block), more.blocks, k + 1) != (a + block) + rest
    ensures var w, more := Placeholder(k), Stash(rest, k + 1);
            d < |a + (w + more.text)| || !OnlyThere(a, w, more.text)
    decreases |rest|, 3
  {
    hide Placeholder, FindBlock, Replace, Restore, OnlyInserted, Soft, Stash;
    var w, more := Placeholder(k), Stash(rest, k + 1);
    var ideal := a + (w + more.text);
    if i < d { OccurrenceBeginsWithUnderscore(text, k, i); }
    assert text[..i] == text[..d][..i];
    if d == |ideal| { assert text == text[..d] == ideal; }
    assert a + (block + more.text) == (a + block) + more.text;
    VeersInFront(text, Replace(text, w, block), a, w + more.text, block + more.text, i);
    Follow(Replace(text, w, block), a + block, rest, k + 1, i);
  }

  /** The text has not veered before the end of the placeholder at hand. */
  lemma FollowBehind(text: string, a: string, block: string, rest: string, k: nat, d: nat)
    requires Swaps(Placeholder(k), block)
    requires var w, more := Placeholder(k), Stash(rest, k + 1);
             && Veers(text, a + (w + more.text), d) && |a| + |w| <= d
             && (forall j: nat :: j < |a| ==> !OccursAt(text, w, j))
             && (d < |a + (w + more.text)| ==> Soft(rest, k + 1, d - |a| - |w|))
    ensures var w, more := Placeholder(k), Stash(rest, k + 1);
            Restore(Replace(text, w, block), more.blocks, k + 1) == (a + block) + rest
            <==> d == |a + (w + more.text)| && OnlyThere(a, w, more.text) && OnlyInserted(a + block, rest, k + 1)
    decreases |rest|, 3
  {
    hide Placeholder, FindBlock, Replace, Restore, OnlyInserted, Soft, Stash, OccursAt, Swaps;
    var w, more := Placeholder(k), Stash(rest, k + 1);
    StillInPlace(text, a, w, more.text, d);
    var tail := text[|a| + |w|..];
    ReplaceFirst(a, w, tail, block);
    var e := TailChange(tail, rest, k, block, d - |a| - |w|);
    VeersBehind(a + block, Replace(tail, w, block), more.text, e);
    assert Replace(text, w, block) == (a + block) + Replace(tail, w, block);
    if d == |text| && d == |a + (w + more.text)| { assert text == text[..d] == a + (w + more.text); }
    Follow(Replace(text, w, block), a + block, rest, k + 1, |a + block| + e);
  }

  /** From one step to the next: while the text is what it should be, it ends as the original
      exactly when everything is clean from here on; once it has veered, it never returns. */
  lemma {:induction false} Follow(text: string, done: string, rest: string, k: nat, d: nat)
    requires Veers(text, done + Stash(rest, k).text, d)
    requires d < |done + Stash(rest, k).text| ==> d < |done| || Soft(rest, k, d - |done|)
    ensures Restore(text, Stash(rest, k).blocks, k) == done + rest
            <==> d == |done + Stash(rest, k).text| && OnlyInserted(done, rest, k)
    decreases |rest|, 2
  {
    hide Placeholder, FindBlock, OccursAt, Replace, Swaps, Restore, OnlyInserted, Soft, Stash, OnlyThere, Lost;
    if FindBlock(rest).None? {
      FollowToTheEnd(text, done, rest, k, d);
    } else {
      Pieces(done, rest, k);
      OneStep(text, done, rest, k);
      var (start, end) := FindBlock(rest).value;
      var a, block, more := done + rest[..start], rest[start..end], Stash(rest[end..], k + 1);
      var w := Placeholder(k);
      var i := FirstChange(text, w, block, d);
      if |a| <= d < |a + (w + more.text)| { SoftStep(rest, k, d - |done|); }
      if i < |a| {
        FollowInFront(text, a, block, rest[end..], k, d, i);
      } else if d < |a| + |w| {
        SwapsABlock(w, block);
        LosesTheEnd(text, Replace(text, w, block), a, k, block, more.text, rest[end..], d);
        LostForever(Replace(text, w, block), a + block, rest[end..], k + 1, |a|, k, d - |a|);
      } else {
        FollowBehind(text, a, block, rest[end..], k, d);
      }
    }
  }

  lemma SwapsABlock(w: string, block: string)
    requires Swaps(w, block)
    ensures block != "" && block[0] == '`'
  {
  }

  /** For every text: restoring the stashed text gives it back if and only if each block's
      placeholder occurs neither in the text up to its block nor in what the rest is stashed to. */
  lemma RestoreUndoesStashIff(text: string)
    ensures Restore(Stash(text, 0).text, Stash(text, 0).blocks, 0) == text <==> OnlyInserted("", text, 0)
  {
    hide Stash, Restore, OnlyInserted, Soft;
    var s := Stash(text, 0);
    assert "" + s.text == s.text && "" + text == text;
    Follow(s.text, "", text, 0, |s.text|);
  }

  /** A text without the placeholder word is clean. */
  lemma WordlessIsOnlyInserted(text: string)
    requires !OccursIn(text, WORD)
    ensures OnlyInserted("", text, 0)
  {
    RestoreUndoesStash(text);
    RestoreUndoesStashIff(text);
  }

  /** A text that is one block is clean even if the block spells its own placeholder. */
  lemma OneBlockIsOnlyInserted(text: string)
    requires FindBlock(text) == Some((0, |text|))
    ensures OnlyInserted("", text, 0)
  {
    hide FindBlock, Placeholder;
    assert text[|text|..] == "" && text[..0] == "";
    NoBlockInNothing();
    PlaceholderChars(0);
    forall j: nat ensures !OccursAt("", Placeholder(0), j) { }
    assert OnlyInserted("" + text[..0] + text[0..|text|], "", 1);
  }
}
