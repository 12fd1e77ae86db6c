/** A set of texts sorted by code point and joined with commas, as `",".join(sorted(texts))`. */
module Listing {
  import opened Text

  // ---------- the order of texts ----------

  predicate Leq(a: string, b: string) {
    a == "" || (b != "" && (a[0] < b[0] || (a[0] == b[0] && Leq(a[1..], b[1..]))))
  }

  lemma {:induction false} LeqTotal(a: string, b: string)
    ensures Leq(a, b) || Leq(b, a)
  {
    if a != "" && b != "" && a[0] == b[0] { LeqTotal(a[1..], b[1..]); }
  }

  lemma {:induction false} LeqTransitive(a: string, b: string, c: string)
    requires Leq(a, b) && Leq(b, c)
    ensures Leq(a, c)
  {
    if a != "" && a[0] == b[0] && b[0] == c[0] { LeqTransitive(a[1..], b[1..], c[1..]); }
  }

  lemma {:induction false} LeqAntisymmetric(a: string, b: string)
    requires Leq(a, b) && Leq(b, a)
    ensures a == b
  {
    if a != "" {
      LeqAntisymmetric(a[1..], b[1..]);
      assert a == [a[0]] + a[1..] && b == [b[0]] + b[1..];
    }
  }

  predicate IsLeast(m: string, texts: set<string>) { m in texts && forall t :: t in texts ==> Leq(m, t) }

  lemma {:induction false} LeastExists(texts: set<string>) returns (m: string)
    requires texts != {}
    ensures IsLeast(m, texts)
    decreases |texts|
  {
    var t :| t in texts;
    var rest := texts - {t};
    LeqTotal(t, t);
    if rest == {} {
      assert texts == {t};
      m := t;
    } else {
      var r := LeastExists(rest);
      LeqTotal(t, r);
      m := if Leq(t, r) then t else r;
      forall x | x in texts ensures Leq(m, x) {
        if x != t && m == t { LeqTransitive(t, r, x); }
      }
    }
  }

  lemma OneLeast(texts: set<string>)
    requires texts != {}
    ensures exists m :: IsLeast(m, texts)
    ensures forall a, b :: IsLeast(a, texts) && IsLeast(b, texts) ==> a == b
  {
    var m := LeastExists(texts);
    forall a, b | IsLeast(a, texts) && IsLeast(b, texts) ensures a == b { LeqAntisymmetric(a, b); }
  }

  // ---------- sorting and joining ----------

  function Sorted(texts: set<string>): (list: seq<string>)
    ensures forall t :: t in list <==> t in texts
    decreases |texts|
  {
    if texts == {} then []
    else
      OneLeast(texts);
      var m :| IsLeast(m, texts);
      [m] + Sorted(texts - {m})
  }

  lemma SortedFirst(texts: set<string>)
    requires texts != {}
    ensures Sorted(texts) != []
    ensures var m := Sorted(texts)[0];
            IsLeast(m, texts) && Sorted(texts) == [m] + Sorted(texts - {m})
  {
  }

  /** Sorted really sorts: each text comes before those after it. */
  lemma {:induction false} SortedInOrder(texts: set<string>, i: nat, j: nat)
    requires i < j < |Sorted(texts)|
    ensures Leq(Sorted(texts)[i], Sorted(texts)[j]) && Sorted(texts)[i] != Sorted(texts)[j]
    decreases |texts|
  {
    var m := Sorted(texts)[0];
    SortedFirst(texts);
    var rest := Sorted(texts - {m});
    if i == 0 {
      assert rest[j - 1] in rest;
    } else {
      SortedInOrder(texts - {m}, i - 1, j - 1);
    }
  }

  function Commas(list: seq<string>): string {
    if list == [] then "" else if |list| == 1 then list[0] else list[0] + [','] + Commas(list[1..])
  }

  function CommaText(texts: set<string>): string { Commas(Sorted(texts)) }

  // ---------- what the joined text tells ----------

  /** Non-empty texts without commas. */
  predicate CommaFree(list: seq<string>) { forall i :: 0 <= i < |list| ==> list[i] != "" && Without(',', list[i]) }

  lemma {:induction false} CommasNotEmpty(list: seq<string>)
    requires CommaFree(list) && list != []
    ensures Commas(list) != "" && (|list| == 1 ==> Without(',', Commas(list)))
    ensures |list| > 1 ==> Commas(list) == list[0] + [','] + Commas(list[1..]) && !Without(',', Commas(list))
  {
    if |list| > 1 { assert Commas(list)[|list[0]|] == ','; }
  }

  /** Non-empty texts without commas can be read back from their join. */
  lemma {:induction false} CommasInjective(a: seq<string>, b: seq<string>)
    requires CommaFree(a) && CommaFree(b) && Commas(a) == Commas(b)
    ensures a == b
    decreases |a|
  {
    if a != [] { CommasNotEmpty(a); }
    if b != [] { CommasNotEmpty(b); }
    if |a| > 1 && |b| > 1 {
      SplitAtSeparator(',', a[0], Commas(a[1..]), b[0], Commas(b[1..]));
      CommasInjective(a[1..], b[1..]);
      assert a == [a[0]] + a[1..] && b == [b[0]] + b[1..];
    }
  }

  predicate AllCommaFree(texts: set<string>) { forall t :: t in texts ==> t != "" && Without(',', t) }

  lemma ListIsCommaFree(texts: set<string>)
    requires AllCommaFree(texts)
    ensures CommaFree(Sorted(texts))
  {
    forall i | 0 <= i < |Sorted(texts)| ensures Sorted(texts)[i] != "" && Without(',', Sorted(texts)[i]) {
      assert Sorted(texts)[i] in Sorted(texts);
    }
  }

  /** Sets of non-empty texts without commas list alike exactly when they are equal. */
  lemma CommaTextTellsSets(a: set<string>, b: set<string>)
    requires AllCommaFree(a) && AllCommaFree(b)
    ensures CommaText(a) == CommaText(b) <==> a == b
  {
    if CommaText(a) == CommaText(b) {
      ListIsCommaFree(a);
      ListIsCommaFree(b);
      CommasInjective(Sorted(a), Sorted(b));
      assert forall t :: t in a <==> t in Sorted(a);
      assert forall t :: t in b <==> t in Sorted(b);
    }
  }

  /** With a comma in a text they may list alike and differ. */
  lemma CommaBlursSets()
    ensures CommaText({"a,b"}) == CommaText({"a", "b"}) == "a,b"
  {
    SortedOne("a,b");
    SortedPair();
    assert Commas(["a,b"]) == "a,b";
    assert Commas(["a", "b"][1..]) == "b";
    assert Commas(["a", "b"]) == "a" + [','] + "b";
  }

  lemma SortedOne(t: string)
    ensures Sorted({t}) == [t]
  {
    SortedFirst({t});
    assert {t} - {t} == {};
  }

  lemma SortedPair()
    ensures Sorted({"a", "b"}) == ["a", "b"]
  {
    assert IsLeast("a", {"a", "b"});
    OneLeast({"a", "b"});
    SortedFirst({"a", "b"});
    assert {"a", "b"} - {"a"} == {"b"};
    SortedOne("b");
  }
}
