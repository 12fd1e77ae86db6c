/** What the id of a capability tells: the parts it was made from, up to trimming and case, as long
    as no part contains the separators. */
module Identities {
  import opened Redaction
  import opened Text
  import opened Listing
  import opened Admission

  // ---------- normalised texts ----------

  /** In lower case, and neither beginning nor ending with a blank. */
  predicate Normal(s: string) {
    && (forall i :: 0 <= i < |s| ==> LowerChar(s[i]) == s[i])
    && (s != "" ==> !Blankspace(s[0]) && !Blankspace(s[|s| - 1]))
  }

  lemma {:induction false} LowerChars(s: string)
    ensures |Lower(s)| == |s| && forall i :: 0 <= i < |s| ==> Lower(s)[i] == LowerChar(s[i])
  {
    if s != "" { LowerChars(s[1..]); }
  }

  lemma {:induction false} StripEnds(s: string)
    ensures Strip(s) != "" ==> !Blankspace(Strip(s)[0]) && !Blankspace(Strip(s)[|Strip(s)| - 1])
    decreases |s|
  {
    if s != "" && Blankspace(s[0]) { StripEnds(s[1..]); }
    else if s != "" && Blankspace(s[|s| - 1]) { StripEnds(s[..|s| - 1]); }
  }

  lemma NormIsNormal(s: string)
    ensures Normal(Norm(s)) && (Norm(s) == "" <==> Strip(s) == "")
  {
    StripEnds(s);
    LowerChars(Strip(s));
  }

  lemma NormalIsFixed(s: string)
    requires Normal(s)
    ensures Norm(s) == s
  {
    LowerChars(s);
    assert Lower(s) == s;
  }

  lemma {:induction false} CommasAreNormal(list: seq<string>)
    requires forall i :: 0 <= i < |list| ==> list[i] != "" && Normal(list[i])
    ensures Normal(Commas(list)) && (list != [] ==> Commas(list) != "")
    decreases |list|
  {
    if |list| > 1 {
      CommasAreNormal(list[1..]);
      JoinIsNormal(list[0], Commas(list[1..]));
    }
  }

  lemma JoinIsNormal(a: string, b: string)
    requires a != "" && b != "" && Normal(a) && Normal(b)
    ensures Normal(a + [','] + b)
  {
    var s := a + [','] + b;
    assert forall i :: 0 <= i < |a| ==> s[i] == a[i];
    assert forall i :: |a| < i < |s| ==> s[i] == b[i - |a| - 1];
  }

  lemma NormsAreNormal(perms: set<string>)
    ensures forall t :: t in Norms(perms) ==> t != "" && Normal(t)
  {
    forall p ensures Normal(Norm(p)) && (Norm(p) == "" <==> Strip(p) == "") { NormIsNormal(p); }
  }

  /** The joined permissions are already trimmed and in lower case. */
  lemma PermissionTextIsNormal(perms: set<string>)
    ensures Norm(CommaText(Norms(perms))) == CommaText(Norms(perms))
  {
    var list := Sorted(Norms(perms));
    NormsAreNormal(perms);
    forall i | 0 <= i < |list| ensures list[i] != "" && Normal(list[i]) { assert list[i] in list; }
    CommasAreNormal(list);
    NormalIsFixed(Commas(list));
  }

  // ---------- parts without separators ----------

  /** No part but the permissions contains a bar, and no permission a comma. */
  predicate Unambiguous(i: Identity) {
    && NoBar(Norm(i.kind)) && NoBar(Norm(i.source)) && NoBar(Norm(i.name))
    && NoBar(Norm(i.version)) && NoBar(Norm(i.digest))
    && forall p :: p in Norms(i.perms) ==> Without(',', p)
  }

  predicate SameParts(i: Identity, j: Identity) {
    && Norm(i.kind) == Norm(j.kind) && Norm(i.source) == Norm(j.source) && Norm(i.name) == Norm(j.name)
    && Norm(i.version) == Norm(j.version) && Norm(i.digest) == Norm(j.digest)
    && Norms(i.perms) == Norms(j.perms)
  }

  /** The digests of the two different texts are the same. */
  predicate Collide(env: Env, i: Identity, j: Identity) {
    IdentityText(i) != IdentityText(j) && env.sha(IdentityText(i)) == env.sha(IdentityText(j))
  }

  lemma SameTextIff(i: Identity, j: Identity)
    requires Unambiguous(i) && Unambiguous(j)
    ensures IdentityText(i) == IdentityText(j) <==> SameParts(i, j)
  {
    if IdentityText(i) == IdentityText(j) {
      SameTextSplits(i, j);
      PermissionTextIsNormal(i.perms);
      PermissionTextIsNormal(j.perms);
      NormsAreNormal(i.perms);
      NormsAreNormal(j.perms);
      CommaTextTellsSets(Norms(i.perms), Norms(j.perms));
    }
  }

  lemma SameTextSplits(i: Identity, j: Identity)
    requires Unambiguous(i) && Unambiguous(j) && IdentityText(i) == IdentityText(j)
    ensures Norm(i.kind) == Norm(j.kind) && Norm(i.source) == Norm(j.source) && Norm(i.name) == Norm(j.name)
    ensures Norm(i.version) == Norm(j.version) && Norm(i.digest) == Norm(j.digest)
    ensures Norm(CommaText(Norms(i.perms))) == Norm(CommaText(Norms(j.perms)))
  {
    hide Norm, Norms, CommaText;
    var i5, j5 := Norm(CommaText(Norms(i.perms))), Norm(CommaText(Norms(j.perms)));
    var i4, j4 := Norm(i.digest) + ['|'] + i5, Norm(j.digest) + ['|'] + j5;
    var i3, j3 := Norm(i.version) + ['|'] + i4, Norm(j.version) + ['|'] + j4;
    var i2, j2 := Norm(i.name) + ['|'] + i3, Norm(j.name) + ['|'] + j3;
    var i1, j1 := Norm(i.source) + ['|'] + i2, Norm(j.source) + ['|'] + j2;
    SplitAtSeparator('|', Norm(i.kind), i1, Norm(j.kind), j1);
    SplitAtSeparator('|', Norm(i.source), i2, Norm(j.source), j2);
    SplitAtSeparator('|', Norm(i.name), i3, Norm(j.name), j3);
    SplitAtSeparator('|', Norm(i.version), i4, Norm(j.version), j4);
    SplitAtSeparator('|', Norm(i.digest), i5, Norm(j.digest), j5);
  }

  /** Unambiguous identities get the same id exactly when their parts agree up to trimming and case,
      permission sets included, or the digests of their different texts collide.  A bar inside a
      permission does no harm, since the permissions come last. */
  lemma SameIdIff(env: Env, i: Identity, j: Identity)
    requires Unambiguous(i) && Unambiguous(j)
    ensures IdOf(env, i) == IdOf(env, j) <==> SameParts(i, j) || Collide(env, i, j)
  {
    hide Unambiguous, SameParts, IdentityText;
    SameTextIff(i, j);
  }

  // ---------- with a separator inside a part ----------

  lemma SameLastParts(i: Identity, j: Identity, a: string, b: string)
    requires Norm(i.kind) == Norm(j.kind) && Norm(i.source) == Norm(j.source) && Norm(i.name) == Norm(j.name)
    requires a == Norm(i.version) + ['|'] + (Norm(i.digest) + ['|'] + Norm(CommaText(Norms(i.perms))))
    requires b == Norm(j.version) + ['|'] + (Norm(j.digest) + ['|'] + Norm(CommaText(Norms(j.perms))))
    requires a == b
    ensures IdentityText(i) == IdentityText(j)
  {
  }

  /** A bar can move between version and digest. */
  lemma BarsBlurIdentities(env: Env, kind: string, source: string, name: string, perms: set<string>)
    ensures var i := Identity(kind, source, name, "1|2", "3", perms);
            var j := Identity(kind, source, name, "1", "2|3", perms);
            !SameParts(i, j) && IdOf(env, i) == IdOf(env, j)
  {
    hide Norm, Norms, IdentityText;
    ShortNorms();
    var i, j := Identity(kind, source, name, "1|2", "3", perms), Identity(kind, source, name, "1", "2|3", perms);
    var tail := Norm(CommaText(Norms(perms)));
    SeparatorMoves('|', "1", "2", "3" + ['|'] + tail);
    assert "1|2" == "1" + ['|'] + "2" && "2|3" == "2" + ['|'] + "3";
    assert "2" + ['|'] + ("3" + ['|'] + tail) == "2|3" + ['|'] + tail;
    SameLastParts(i, j, "1|2" + ['|'] + ("3" + ['|'] + tail), "1" + ['|'] + ("2|3" + ['|'] + tail));
  }

  lemma ShortNorms()
    ensures Norm("1|2") == "1|2" && Norm("2|3") == "2|3" && Norm("1") == "1" && Norm("3") == "3"
  {
  }

  lemma ShortPermissions()
    ensures Norms({"a,b"}) == {"a,b"} && Norms({"a", "b"}) == {"a", "b"}
  {
    hide Norm, Strip;
    ShortPermission("a,b");
    ShortPermission("a");
    ShortPermission("b");
    assert "a" in {"a", "b"} && "b" in {"a", "b"} && "a,b" in {"a,b"};
  }

  lemma ShortPermission(p: string)
    requires p in {"a", "b", "a,b"}
    ensures Norm(p) == p && Strip(p) != ""
  {
  }

  /** One permission with a comma counts for two. */
  lemma CommasBlurPermissions(env: Env, i: Identity)
    ensures !SameParts(i.(perms := {"a,b"}), i.(perms := {"a", "b"}))
    ensures IdOf(env, i.(perms := {"a,b"})) == IdOf(env, i.(perms := {"a", "b"}))
  {
    hide Norm, CommaText;
    ShortPermissions();
    CommaBlursSets();
    assert "a" in {"a", "b"} && "a" !in {"a,b"};
  }
}
