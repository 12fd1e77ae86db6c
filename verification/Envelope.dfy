/** Merging of result envelopes (ghostchimera/chimera_pilot/result_envelope.py). */
module Envelope {
  import opened Wrappers
  import opened Sums

  /** `V` stands for the carried values and `E` for the entries of the lists an envelope carries. */
  datatype Envelope<V, E> = Envelope(
    id: string,
    kind: string,
    value: V,
    confidence: real,
    confidenceSource: string,
    provenance: seq<E>,
    sources: seq<E>,
    transforms: seq<E>,
    constraints: seq<E>,
    claims: seq<E>,
    warnings: seq<string>,
    mergedFrom: seq<string>,
    mergeMode: Option<string>)

  /** A merge carries all the values or one of them. */
  datatype Choice<V> = All(values: seq<V>) | One(value: V)

  // ---------- confidence ----------

  function Weight(c: real): (w: real)
    ensures w > 0.0
  {
    if c > 0.001 then c else 0.001
  }

  function Weights(cs: seq<real>): (ws: seq<real>)
    ensures |ws| == |cs| && forall i :: 0 <= i < |cs| ==> ws[i] == Weight(cs[i])
  {
    if cs == [] then [] else Weights(cs[..|cs| - 1]) + [Weight(cs[|cs| - 1])]
  }

  function Mean(cs: seq<real>): real
    requires cs != []
  {
    Sum(cs) / (|cs| as real)
  }

  function Weighted(cs: seq<real>): real
    requires cs != []
  {
    if Sum(Weights(cs)) != 0.0 then Dot(cs, Weights(cs)) / Sum(Weights(cs)) else 0.0
  }

  function Max(cs: seq<real>): (m: real)
    requires cs != []
    ensures m in cs && forall i :: 0 <= i < |cs| ==> cs[i] <= m
  {
    var last := cs[|cs| - 1];
    if |cs| == 1 then last
    else
      var m := Max(cs[..|cs| - 1]);
      if last > m then last else m
  }

  /** The confidence before rounding, by the name of the strategy. */
  function Confidence(strategy: string, cs: seq<real>): real
    requires cs != []
  {
    if strategy == "max" then Max(cs) else if strategy == "mean" then Mean(cs) else Weighted(cs)
  }

  /** Some two confidences differ and the higher is above the least weight. */
  ghost predicate Uneven(cs: seq<real>) {
    exists i, j :: 0 <= i < j < |cs| && cs[i] != cs[j] && (cs[i] > 0.001 || cs[j] > 0.001)
  }

  lemma MeanBelowWeighted(cs: seq<real>)
    requires cs != []
    ensures Mean(cs) <= Weighted(cs)
    ensures Mean(cs) < Weighted(cs) <==> Uneven(cs)
  {
    hide Mul;
    var ws := Weights(cs);
    SumOfPositive(ws);
    Chebyshev(cs, ws);
    Quotients(Sum(cs), |cs| as real, Dot(cs, ws), Sum(ws));
    assert BothDiffer(cs, ws) <==> Uneven(cs) by {
      assert forall i, j :: 0 <= i < j < |cs| ==>
          (Differ(cs[i], ws[i], cs[j], ws[j]) <==> cs[i] != cs[j] && (cs[i] > 0.001 || cs[j] > 0.001));
    }
  }

  lemma WeightedBelowMax(cs: seq<real>)
    requires cs != []
    ensures Weighted(cs) <= Max(cs)
    ensures Weighted(cs) == Max(cs) <==> Constant(cs, Max(cs))
  {
    hide Mul;
    var ws, m := Weights(cs), Max(cs);
    SumOfPositive(ws);
    DotBelow(cs, ws, m);
    QuotientBelow(Dot(cs, ws), Sum(ws), m);
  }

  /** For every non-empty list: mean <= weighted <= max.  The first is strict exactly when two
      confidences differ with the higher above the least weight, the second exactly when not all
      confidences are equal. */
  lemma MeanWeightedMax(cs: seq<real>)
    requires cs != []
    ensures Confidence("mean", cs) <= Confidence("weighted", cs) <= Confidence("max", cs)
    ensures Confidence("mean", cs) < Confidence("weighted", cs) <==> Uneven(cs)
    ensures Confidence("weighted", cs) == Confidence("max", cs) <==> Constant(cs, Max(cs))
  {
    MeanBelowWeighted(cs);
    WeightedBelowMax(cs);
  }

  // ---------- lists ----------

  function Flatten<T>(lists: seq<seq<T>>): seq<T> {
    if lists == [] then [] else Flatten(lists[..|lists| - 1]) + lists[|lists| - 1]
  }

  function Offset<T>(lists: seq<seq<T>>, i: nat): nat
    requires i <= |lists|
  {
    if i == 0 then 0 else Offset(lists, i - 1) + |lists[i - 1]|
  }

  lemma {:induction false} OffsetOfPrefix<T>(lists: seq<seq<T>>, n: nat, i: nat)
    requires i <= n <= |lists|
    ensures Offset(lists[..n], i) == Offset(lists, i)
  {
    if i > 0 { OffsetOfPrefix(lists, n, i - 1); }
  }

  lemma {:induction false} OffsetsGrow<T>(lists: seq<seq<T>>, i: nat, n: nat)
    requires i <= n <= |lists|
    ensures Offset(lists, i) <= Offset(lists, n)
  {
    if i < n { OffsetsGrow(lists, i, n - 1); }
  }

  /** Nothing is lost, added or reordered: each list stands where those before it end, and the
      whole ends where the last one does. */
  lemma {:induction false} FlattenKeepsEveryList<T>(lists: seq<seq<T>>, i: nat)
    requires i < |lists|
    ensures |Flatten(lists)| == Offset(lists, |lists|)
    ensures Offset(lists, i) <= Offset(lists, i + 1) <= |Flatten(lists)|
    ensures Flatten(lists)[Offset(lists, i)..Offset(lists, i + 1)] == lists[i]
    decreases |lists|
  {
    var n := |lists| - 1;
    var init := lists[..n];
    OffsetOfPrefix(lists, n, n);
    if n > 0 { FlattenKeepsEveryList(init, if i < n then i else 0); }
    if i < n {
      OffsetOfPrefix(lists, n, i);
      OffsetOfPrefix(lists, n, i + 1);
    }
  }

  // ---------- consensus ----------

  /** How often the key occurs in the first `n` places. */
  function CountTo<K(==)>(keys: seq<K>, n: nat, key: K): nat
    requires n <= |keys|
  {
    if n == 0 then 0 else CountTo(keys, n - 1, key) + (if keys[n - 1] == key then 1 else 0)
  }

  function Count<K(==)>(keys: seq<K>, key: K): nat { CountTo(keys, |keys|, key) }

  /** `w` is where the first-appearing most frequent key first appears. */
  ghost predicate IsConsensus<K>(keys: seq<K>, w: nat) {
    && w < |keys|
    && (forall j :: 0 <= j < w ==> Count(keys, keys[j]) < Count(keys, keys[w]))
    && (forall j :: 0 <= j < |keys| ==> Count(keys, keys[j]) <= Count(keys, keys[w]))
  }

  lemma ConsensusIsUnique<K>(keys: seq<K>, v: nat, w: nat)
    requires IsConsensus(keys, v) && IsConsensus(keys, w)
    ensures v == w && keys[v] !in keys[..v]
  {
    assert Count(keys, keys[v]) <= Count(keys, keys[w]) <= Count(keys, keys[v]);
  }

  /** The places of the keys of a dictionary, in order of insertion. */
  function Places<K(==)>(keys: seq<K>, n: nat): (ps: seq<nat>)
    requires n <= |keys|
    ensures forall a :: 0 <= a < |ps| ==> ps[a] < n && CountTo(keys, ps[a], keys[ps[a]]) == 0
    ensures forall a, b :: 0 <= a < b < |ps| ==> ps[a] < ps[b]
  {
    if n == 0 then []
    else if CountTo(keys, n - 1, keys[n - 1]) > 0 then Places(keys, n - 1)
    else Places(keys, n - 1) + [n - 1]
  }

  lemma {:induction false} Occurrence<K>(keys: seq<K>, n: nat, key: K) returns (j: nat)
    requires n <= |keys| && CountTo(keys, n, key) > 0
    ensures j < n && keys[j] == key
  {
    if keys[n - 1] == key { j := n - 1; } else { j := Occurrence(keys, n - 1, key); }
  }

  lemma {:induction false} CountReaches<K>(keys: seq<K>, n: nat, j: nat)
    requires j < n <= |keys|
    ensures CountTo(keys, n, keys[j]) > 0
  {
    if j < n - 1 { CountReaches(keys, n - 1, j); }
  }

  /** Every key has its place no later than any of its occurrences. */
  lemma {:induction false} PlaceOf<K>(keys: seq<K>, n: nat, j: nat) returns (a: nat)
    requires j < n <= |keys|
    ensures a < |Places(keys, n)| && Places(keys, n)[a] <= j && keys[Places(keys, n)[a]] == keys[j]
    decreases n
  {
    if j < n - 1 {
      a := PlaceOf(keys, n - 1, j);
    } else if CountTo(keys, n - 1, keys[j]) > 0 {
      var i := Occurrence(keys, n - 1, keys[j]);
      a := PlaceOf(keys, n - 1, i);
    } else {
      a := |Places(keys, n - 1)|;
    }
  }

  /** The dictionary of counts, and its keys in order of insertion. */
  method CountKeys<K(==)>(keys: seq<K>) returns (counts: map<K, nat>, order: seq<K>)
    ensures var ps := Places(keys, |keys|);
            |order| == |ps| && forall a :: 0 <= a < |order| ==> order[a] == keys[ps[a]] && order[a] in counts
    ensures forall k :: k in counts ==> counts[k] == Count(keys, k)
  {
    counts, order := map[], [];
    for i := 0 to |keys|
      invariant |order| == |Places(keys, i)|
      invariant forall a :: 0 <= a < |order| ==> order[a] == keys[Places(keys, i)[a]] && order[a] in counts
      invariant forall k :: k in counts <==> CountTo(keys, i, k) > 0
      invariant forall k :: k in counts ==> counts[k] == CountTo(keys, i, k)
    {
      var key := keys[i];
      if key !in counts { order := order + [key]; }
      counts := counts[key := (if key in counts then counts[key] else 0) + 1];
    }
  }

  /** `max(counts, key=counts.get)` */
  method FirstMost<K(==)>(keys: seq<K>) returns (winner: K, ghost best: nat)
    requires keys != []
    ensures winner in keys && forall j :: 0 <= j < |keys| ==> Count(keys, keys[j]) <= Count(keys, winner)
    ensures var ps := Places(keys, |keys|);
            && best < |ps| && winner == keys[ps[best]]
            && (forall b :: 0 <= b < best ==> Count(keys, keys[ps[b]]) < Count(keys, winner))
            && (forall b :: 0 <= b < |ps| ==> Count(keys, keys[ps[b]]) <= Count(keys, winner))
  {
    var counts, order := CountKeys(keys);
    var first := PlaceOf(keys, |keys|, 0);
    var top := 0;
    for a := 1 to |order|
      invariant 0 <= top < a
      invariant forall b :: 0 <= b < top ==> Count(keys, order[b]) < Count(keys, order[top])
      invariant forall b :: 0 <= b < a ==> Count(keys, order[b]) <= Count(keys, order[top])
    {
      if counts[order[a]] > counts[order[top]] { top := a; }
    }
    winner, best := order[top], top;
    forall j | 0 <= j < |keys| ensures Count(keys, keys[j]) <= Count(keys, winner) {
      var b := PlaceOf(keys, |keys|, j);
    }
  }

  /** The envelope whose value wins: the first with the winning key. */
  method Consensus<K(==)>(keys: seq<K>) returns (w: nat)
    requires keys != []
    ensures IsConsensus(keys, w)
  {
    var winner, best := FirstMost(keys);
    ghost var ps := Places(keys, |keys|);
    w := 0;
    while keys[w] != winner
      invariant w <= ps[best] && forall j :: 0 <= j < w ==> keys[j] != winner
      decreases |keys| - w
    {
      w := w + 1;
    }
    forall j | 0 <= j < |keys|
      ensures Count(keys, keys[j]) <= Count(keys, keys[w]) && (j < w ==> Count(keys, keys[j]) < Count(keys, keys[w]))
    {
      var b := PlaceOf(keys, |keys|, j);
      if j < w { assert b < best; }
    }
  }

  // ---------- the merge ----------

  function Confidences<V, E>(es: seq<Envelope<V, E>>): seq<real> {
    seq(|es|, i requires 0 <= i < |es| => es[i].confidence)
  }

  function Values<V, E>(es: seq<Envelope<V, E>>): seq<V> { seq(|es|, i requires 0 <= i < |es| => es[i].value) }

  function Ids<V, E>(es: seq<Envelope<V, E>>): seq<string> { seq(|es|, i requires 0 <= i < |es| => es[i].id) }

  function Reprs<V, E>(es: seq<Envelope<V, E>>, repr: V -> string): seq<string> {
    seq(|es|, i requires 0 <= i < |es| => repr(es[i].value))
  }

  function Lists<V, E, T>(es: seq<Envelope<V, E>>, field: Envelope<V, E> -> seq<T>): seq<seq<T>> {
    seq(|es|, i requires 0 <= i < |es| => field(es[i]))
  }

  ghost predicate MergedValue<V, E>(es: seq<Envelope<V, E>>, mode: string, repr: V -> string, c: Choice<V>)
    requires es != []
  {
    if mode == "first" then c == One(es[0].value)
    else if mode == "consensus" then
      exists w: nat :: w < |es| && IsConsensus(Reprs(es, repr), w) && c == One(es[w].value)
    else c == All(Values(es))
  }

  /** `merge_envelopes`; `step` is the entry that records the merge and `round` rounds to four places. */
  method MergeEnvelopes<V, E>(es: seq<Envelope<V, E>>, strategy: string, mode: string, repr: V -> string,
                              round: real -> real, id: string, step: E)
      returns (m: Envelope<Choice<V>, E>)
    ensures es == [] ==>
              m == Envelope(id, "merged", All([]), 0.0, "", [], [], [], [], [], [], [], None)
    ensures es != [] ==>
              && m.kind == "merged" && m.confidenceSource == "merge:" + strategy
              && m.confidence == round(Confidence(strategy, Confidences(es)))
              && MergedValue(es, mode, repr, m.value)
              && m.provenance == Flatten(Lists(es, (e: Envelope<V, E>) => e.provenance))
              && m.sources == Flatten(Lists(es, (e: Envelope<V, E>) => e.sources))
              && m.transforms == Flatten(Lists(es, (e: Envelope<V, E>) => e.transforms)) + [step]
              && m.constraints == Flatten(Lists(es, (e: Envelope<V, E>) => e.constraints))
              && m.claims == Flatten(Lists(es, (e: Envelope<V, E>) => e.claims))
              && m.warnings == Flatten(Lists(es, (e: Envelope<V, E>) => e.warnings))
              && m.mergedFrom == Ids(es) && m.mergeMode == Some(mode)
  {
    if es == [] { return Envelope(id, "merged", All([]), 0.0, "", [], [], [], [], [], [], [], None); }
    var value: Choice<V>;
    if mode == "first" {
      value := One(es[0].value);
    } else if mode == "consensus" {
      var w := Consensus(Reprs(es, repr));
      value := One(es[w].value);
    } else {
      value := All(Values(es));
    }
    m := Envelope(id, "merged", value, round(Confidence(strategy, Confidences(es))), "merge:" + strategy,
                  Flatten(Lists(es, (e: Envelope<V, E>) => e.provenance)),
                  Flatten(Lists(es, (e: Envelope<V, E>) => e.sources)),
                  Flatten(Lists(es, (e: Envelope<V, E>) => e.transforms)),
                  Flatten(Lists(es, (e: Envelope<V, E>) => e.constraints)),
                  Flatten(Lists(es, (e: Envelope<V, E>) => e.claims)),
                  Flatten(Lists(es, (e: Envelope<V, E>) => e.warnings)),
                  Ids(es), Some(mode));
    m := m.(transforms := m.transforms + [step]);
  }
}
