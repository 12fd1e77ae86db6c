/** Verification of one result against its task (ghostchimera/chimera_pilot/verifier.py). */
module Verifier {
  import opened Wrappers

  datatype Output = Text(text: string) | Dict(keys: set<string>, serialisable: bool) | Other(serialisable: bool)

  datatype Result = Result(backend: string, ok: bool, output: Output, error: string)

  /** The constraints of a task that `verify` reads, with the defaults applied. */
  datatype Constraints = Constraints(requireOk: bool, expectJson: bool, expectedPath: string, requiredKeys: seq<string>)

  /** What `verify` asks of its surroundings: which texts parse as JSON and which files exist. */
  datatype World = World(parses: string -> bool, exists_: string -> bool)

  predicate IsJson(o: Output, w: World) { if o.Text? then w.parses(o.text) else o.serialisable }

  /** The early returns of `ResultVerifier.verify`: whether the result passes, and the error. */
  function Verify(c: Constraints, r: Result, w: World): (bool, Option<string>) {
    if c.requireOk && !r.ok then (false, Some(if r.error != "" then r.error else "backend reported failure"))
    else if c.expectJson && !IsJson(r.output, w) then (false, Some("output is not valid JSON"))
    else if c.expectedPath != "" && !w.exists_(c.expectedPath) then
      (false, Some("expected file does not exist: " + c.expectedPath))
    else if c.requiredKeys != [] && !r.output.Dict? then (false, Some("output is not a dictionary"))
    else if exists k :: k in c.requiredKeys && k !in r.output.keys then (false, Some("output missing keys"))
    else (true, None)
  }

  /** A result is verified exactly when it meets every constraint, and exactly then there is no
      error; an error is never empty. */
  lemma VerifiedIff(c: Constraints, r: Result, w: World)
    ensures var v := Verify(c, r, w);
            && (v.0 <==> (c.requireOk ==> r.ok) && (c.expectJson ==> IsJson(r.output, w))
                         && (c.expectedPath != "" ==> w.exists_(c.expectedPath))
                         && (c.requiredKeys != [] ==>
                               r.output.Dict? && forall k :: k in c.requiredKeys ==> k in r.output.keys))
            && (v.0 <==> v.1 == None)
            && (v.1.Some? ==> v.1.value != "")
  {
  }
}

/** The fallback executor (ghostchimera/chimera_pilot/executor.py). */
module Executor {
  import opened Wrappers
  import opened Verifier

  datatype RunState = PLANNED | SCHEDULED | EXECUTING | VERIFYING | COMMITTED | FAILED | CANCELLED

  /** What a ranked backend does when it is asked, and the surroundings its result is verified in. */
  datatype Backend = Backend(id: string, behaviour: Behaviour, world: World)
  datatype Behaviour = Returns(result: Result) | Raises(message: string)

  function ResultOf(b: Backend): Result {
    match b.behaviour
    case Returns(r) => r
    case Raises(message) => Result(b.id, false, Text(""), message)
  }

  /** A backend whose result is ok and passes verification. */
  predicate Acceptable(b: Backend, c: Constraints) {
    ResultOf(b).ok && Verify(c, ResultOf(b), b.world).0
  }

  datatype PilotExecution = PilotExecution(
    result: Result, decision: nat, attempts: seq<Result>, verificationError: Option<string>, transitions: seq<RunState>)
  {
    predicate Ok() { result.ok && verificationError == None }
  }

  datatype Outcome = Invalid | Refused | NoBackendAvailable | Executed(execution: PilotExecution)

  /** Run ids that other threads cancel between two checks: before check 0, which precedes the
      first attempt, and before check `i + 1`, which precedes attempt `i`. */
  type Interference = nat -> set<string>

  /** Whether attempt `i` finds its run not cancelled: neither at the outset nor at any check up
      to its own. */
  ghost predicate Reached(initially: set<string>, others: Interference, runId: string, i: nat) {
    runId !in initially && forall k: nat :: k <= i + 1 ==> runId !in others(k)
  }

  function CancelledResult(ranked: seq<Backend>): Result
    requires ranked != []
  {
    Result(ranked[0].id, false, Text(""), "Run cancelled")
  }

  function Start(resumed: bool): seq<RunState> {
    [PLANNED] + (if resumed then [PLANNED] else []) + [SCHEDULED]
  }

  function Rounds(n: nat): seq<RunState> {
    if n == 0 then [] else Rounds(n - 1) + [EXECUTING, VERIFYING]
  }

  function Results(ranked: seq<Backend>): seq<Result> {
    seq(|ranked|, i requires 0 <= i < |ranked| => ResultOf(ranked[i]))
  }

  /** Backend `i` is the first acceptable one, and its attempt is reached. */
  ghost predicate Wins(ranked: seq<Backend>, c: Constraints, reached: nat -> bool, i: nat) {
    && i < |ranked| && Acceptable(ranked[i], c) && reached(i)
    && forall j :: 0 <= j < i ==> !Acceptable(ranked[j], c)
  }

  /** Without a winner the loop stops after `n` attempts: at the end of the ranking or at the first
      attempt that is not reached. */
  ghost predicate StopsAfter(ranked: seq<Backend>, reached: nat -> bool, n: nat) {
    n <= |ranked| && (n > 0 ==> reached(n - 1)) && (n < |ranked| ==> !reached(n))
  }

  /** An attempt is reached only if the one before it is. */
  ghost predicate InOrder(reached: nat -> bool) { forall i: nat, j: nat :: i <= j && reached(j) ==> reached(i) }

  predicate CommittedAt(ranked: seq<Backend>, resumed: bool, i: nat, e: PilotExecution)
    requires i < |ranked|
  {
    && e.result == ResultOf(ranked[i]) && e.decision == i && e.verificationError == None
    && e.attempts == Results(ranked)[..i + 1]
    && e.transitions == Start(resumed) + Rounds(i + 1) + [COMMITTED]
  }

  predicate NotCommitted(ranked: seq<Backend>, c: Constraints, resumed: bool, n: nat, e: PilotExecution)
    requires ranked != [] && n <= |ranked|
  {
    if n == 0 then
      && e.result == CancelledResult(ranked) && e.decision == 0 && e.attempts == []
      && e.verificationError == Some("Run cancelled")
      && e.transitions == Start(resumed) + [CANCELLED]
    else
      && e.result == ResultOf(ranked[n - 1]) && e.decision == n - 1
      && e.attempts == Results(ranked)[..n]
      && e.verificationError == Verify(c, ResultOf(ranked[n - 1]), ranked[n - 1].world).1
      && e.transitions == Start(resumed) + Rounds(n) + (if n < |ranked| then [CANCELLED, FAILED] else [FAILED])
  }

  /** What an execution must be, from the ranking, the verdicts and the cancellations alone. */
  ghost predicate Specified(ranked: seq<Backend>, c: Constraints, resumed: bool, reached: nat -> bool,
                            e: PilotExecution)
    requires ranked != []
  {
    && (forall i: nat :: Wins(ranked, c, reached, i) ==> CommittedAt(ranked, resumed, i, e))
    && ((forall i: nat :: !Wins(ranked, c, reached, i)) ==>
          forall n: nat :: StopsAfter(ranked, reached, n) ==> NotCommitted(ranked, c, resumed, n, e))
  }

  class ChimeraPilotExecutor {
    var cancelledRuns: set<string>

    constructor ()
      ensures cancelledRuns == {}
    {
      cancelledRuns := {};
    }

    method CancelRun(runId: string)
      modifies this
      ensures cancelledRuns == old(cancelledRuns) + {runId}
    {
      cancelledRuns := cancelledRuns + {runId};
    }

    /** `_execute_with_context`.  Runs cancelled by other threads appear in `cancelledRuns` before
        each check. */
    method ExecuteWithContext(valid: bool, permitted: bool, ranked: seq<Backend>, c: Constraints, runId: string,
                              resumed: bool, others: Interference, ghost reached: nat -> bool)
        returns (outcome: Outcome)
      requires forall i: nat :: reached(i) <==> Reached(cancelledRuns, others, runId, i)
      modifies this
      ensures outcome.Invalid? <==> !valid
      ensures outcome.Refused? <==> valid && !permitted
      ensures outcome.NoBackendAvailable? <==> valid && permitted && ranked == []
      ensures outcome.Executed? ==> Specified(ranked, c, resumed, reached, outcome.execution)
    {
      if !valid { return Invalid; }
      if !permitted { return Refused; }
      if ranked == [] { return NoBackendAvailable; }
      var transitions := [PLANNED];
      if resumed { transitions := transitions + [PLANNED]; }
      transitions := transitions + [SCHEDULED];
      assert transitions == Start(resumed);
      ghost var initially := cancelledRuns;
      ReachedInOrder(initially, others, runId, reached);
      cancelledRuns := cancelledRuns + others(0);
      var execution;
      if runId in cancelledRuns {
        transitions := transitions + [CANCELLED];
        execution := PilotExecution(CancelledResult(ranked), 0, [], Some("Run cancelled"), transitions);
        NeverReached(ranked, c, reached);
        SpecifiedByStop(ranked, c, resumed, reached, 0, execution);
      } else {
        execution := TryRanked(ranked, c, runId, resumed, others, initially, reached);
      }
      return Executed(execution);
    }

    /** The loop over the ranking, from the SCHEDULED state. */
    method TryRanked(ranked: seq<Backend>, c: Constraints, runId: string, resumed: bool, others: Interference,
                     ghost initially: set<string>, ghost reached: nat -> bool)
        returns (execution: PilotExecution)
      requires ranked != [] && InOrder(reached)
      requires forall i: nat :: reached(i) <==> Reached(initially, others, runId, i)
      requires runId !in initially && runId !in cancelledRuns && runId !in others(0)
      modifies this
      ensures Specified(ranked, c, resumed, reached, execution)
    {
      hide Verify;
      var transitions := Start(resumed);
      var attempts: seq<Result> := [];
      var lastError: Option<string> := None;
      var lastDecision := 0;
      var lastResult: Option<Result> := None;
      var i := 0;
      var stopped := false;
      while i < |ranked| && !stopped
        invariant i <= |ranked|
        invariant forall j :: 0 <= j < i ==> !Acceptable(ranked[j], c)
        invariant i > 0 ==> reached(i - 1)
        invariant stopped ==> i < |ranked| && !reached(i) && runId in cancelledRuns
        invariant !stopped ==>
                    runId !in cancelledRuns && runId !in initially && forall k: nat :: k <= i ==> runId !in others(k)
        invariant attempts == Results(ranked)[..i]
        invariant Tried(ranked, c, i, lastResult, lastDecision, lastError)
        invariant transitions == Start(resumed) + Rounds(i) + (if stopped then [CANCELLED] else [])
        decreases |ranked| - i, !stopped
      {
        cancelledRuns := cancelledRuns + others(i + 1);
        if runId in cancelledRuns {
          transitions := transitions + [CANCELLED];
          stopped := true;
        } else {
          ghost var before := transitions;
          transitions := transitions + [EXECUTING];
          var result := ResultOf(ranked[i]);
          attempts := attempts + [result];
          lastDecision, lastResult := i, Some(result);
          transitions := transitions + [VERIFYING];
          RoundAdded(resumed, i, before, transitions);
          var (verified, error) := Verify(c, result, ranked[i].world);
          lastError := error;
          if result.ok && verified {
            transitions := transitions + [COMMITTED];
            execution := PilotExecution(result, i, attempts, None, transitions);
            WinReached(ranked, c, resumed, reached, i, execution);
            return;
          }
          i := i + 1;
        }
      }

      cancelledRuns := cancelledRuns + others(|ranked| + 1);
      if runId in cancelledRuns && lastResult == None {
        execution := PilotExecution(CancelledResult(ranked), 0, [], Some("Run cancelled"), transitions);
      } else {
        transitions := transitions + [FAILED];
        execution := PilotExecution(lastResult.value, lastDecision, attempts, lastError, transitions);
      }
      StopReached(ranked, c, resumed, reached, i, execution);
    }
  }

  /** What the loop remembers of the last of `n` attempts. */
  predicate Tried(ranked: seq<Backend>, c: Constraints, n: nat, last: Option<Result>, decision: nat,
                  error: Option<string>)
    requires n <= |ranked|
  {
    if n == 0 then last == None
    else
      && last == Some(ResultOf(ranked[n - 1])) && decision == n - 1
      && error == Verify(c, ResultOf(ranked[n - 1]), ranked[n - 1].world).1
  }

  lemma RoundAdded(resumed: bool, n: nat, before: seq<RunState>, after: seq<RunState>)
    requires before == Start(resumed) + Rounds(n) && after == before + [EXECUTING] + [VERIFYING]
    ensures after == Start(resumed) + Rounds(n + 1)
  {
  }

  lemma ReachedInOrder(initially: set<string>, others: Interference, runId: string, reached: nat -> bool)
    requires forall i: nat :: reached(i) <==> Reached(initially, others, runId, i)
    ensures InOrder(reached)
  {
  }

  lemma SpecifiedByWin(ranked: seq<Backend>, c: Constraints, resumed: bool, reached: nat -> bool, i: nat,
                       e: PilotExecution)
    requires i < |ranked| && Wins(ranked, c, reached, i) && CommittedAt(ranked, resumed, i, e)
    requires forall j: nat :: Wins(ranked, c, reached, j) ==> j == i
    ensures Specified(ranked, c, resumed, reached, e)
  {
  }

  lemma SpecifiedByStop(ranked: seq<Backend>, c: Constraints, resumed: bool, reached: nat -> bool, n: nat,
                        e: PilotExecution)
    requires ranked != [] && n <= |ranked| && NotCommitted(ranked, c, resumed, n, e)
    requires forall i: nat :: !Wins(ranked, c, reached, i)
    requires forall m: nat :: StopsAfter(ranked, reached, m) ==> m == n
    ensures Specified(ranked, c, resumed, reached, e)
  {
  }

  lemma WinReached(ranked: seq<Backend>, c: Constraints, resumed: bool, reached: nat -> bool, i: nat,
                   e: PilotExecution)
    requires i < |ranked| && Acceptable(ranked[i], c) && reached(i) && CommittedAt(ranked, resumed, i, e)
    requires forall j :: 0 <= j < i ==> !Acceptable(ranked[j], c)
    ensures Specified(ranked, c, resumed, reached, e)
  {
    OneWinner(ranked, c, reached, i);
    SpecifiedByWin(ranked, c, resumed, reached, i, e);
  }

  lemma StopReached(ranked: seq<Backend>, c: Constraints, resumed: bool, reached: nat -> bool, n: nat,
                    e: PilotExecution)
    requires ranked != [] && n <= |ranked| && NotCommitted(ranked, c, resumed, n, e) && InOrder(reached)
    requires forall j :: 0 <= j < n ==> !Acceptable(ranked[j], c)
    requires n > 0 ==> reached(n - 1)
    requires n < |ranked| ==> !reached(n)
    ensures Specified(ranked, c, resumed, reached, e)
  {
    NobodyWins(ranked, c, reached, n);
    SpecifiedByStop(ranked, c, resumed, reached, n, e);
  }

  lemma OneWinner(ranked: seq<Backend>, c: Constraints, reached: nat -> bool, i: nat)
    requires i < |ranked| && Acceptable(ranked[i], c) && reached(i)
    requires forall j :: 0 <= j < i ==> !Acceptable(ranked[j], c)
    ensures Wins(ranked, c, reached, i)
    ensures forall j: nat :: Wins(ranked, c, reached, j) ==> j == i
  {
  }

  lemma NeverReached(ranked: seq<Backend>, c: Constraints, reached: nat -> bool)
    requires forall i: nat :: !reached(i)
    ensures forall i: nat :: !Wins(ranked, c, reached, i)
    ensures forall n: nat :: StopsAfter(ranked, reached, n) ==> n == 0
  {
  }

  lemma NobodyWins(ranked: seq<Backend>, c: Constraints, reached: nat -> bool, n: nat)
    requires n <= |ranked| && InOrder(reached)
    requires forall j :: 0 <= j < n ==> !Acceptable(ranked[j], c)
    requires n > 0 ==> reached(n - 1)
    requires n < |ranked| ==> !reached(n)
    ensures forall i: nat :: !Wins(ranked, c, reached, i)
    ensures forall m: nat :: StopsAfter(ranked, reached, m) ==> m == n
  {
    forall m: nat | StopsAfter(ranked, reached, m) ensures m == n {
      assert m < n ==> reached(m);
      assert n < m ==> reached(n);
    }
  }

  // ---------- what every specified execution has ----------

  lemma {:induction false} StopsFrom(ranked: seq<Backend>, reached: nat -> bool, k: nat) returns (n: nat)
    requires k <= |ranked| && (k > 0 ==> reached(k - 1))
    ensures StopsAfter(ranked, reached, n)
    decreases |ranked| - k
  {
    if k == |ranked| || !reached(k) { n := k; } else { n := StopsFrom(ranked, reached, k + 1); }
  }

  /** There is exactly one stopping point, at most one winner, and the winner comes before it. */
  lemma StoppingPoint(ranked: seq<Backend>, c: Constraints, reached: nat -> bool) returns (n: nat)
    requires InOrder(reached)
    ensures StopsAfter(ranked, reached, n) && forall m: nat :: StopsAfter(ranked, reached, m) ==> m == n
    ensures forall i: nat, j: nat :: Wins(ranked, c, reached, i) && Wins(ranked, c, reached, j) ==> i == j
    ensures forall i: nat :: Wins(ranked, c, reached, i) ==> i < n
  {
    n := StopsFrom(ranked, reached, 0);
    forall m: nat | StopsAfter(ranked, reached, m) ensures m == n {
      assert m < n ==> reached(m);
      assert n < m ==> reached(n);
    }
    forall i: nat | Wins(ranked, c, reached, i) ensures i < n { assert n <= i ==> reached(n); }
  }

  /** The ranking, the verdicts and the cancellations leave one execution. */
  lemma OneExecution(ranked: seq<Backend>, c: Constraints, resumed: bool, reached: nat -> bool,
                     e: PilotExecution, f: PilotExecution)
    requires ranked != [] && InOrder(reached)
    requires Specified(ranked, c, resumed, reached, e) && Specified(ranked, c, resumed, reached, f)
    ensures e == f
  {
    hide Results, Rounds, Start, Acceptable, Verify;
    var n := StoppingPoint(ranked, c, reached);
    if i: nat :| Wins(ranked, c, reached, i) {
      assert CommittedAt(ranked, resumed, i, e) && CommittedAt(ranked, resumed, i, f);
    } else {
      assert NotCommitted(ranked, c, resumed, n, e) && NotCommitted(ranked, c, resumed, n, f);
    }
  }

  /** The grammar of traces, as an automaton: PLANNED, optionally PLANNED, SCHEDULED, any number of
      EXECUTING VERIFYING rounds, then COMMITTED, FAILED, CANCELLED or CANCELLED FAILED. */
  datatype Phase =
    | Fresh | Planned | Replanned
    | Ready(rounds: nat) | Busy(rounds: nat) | Cut(rounds: nat) | Done(rounds: nat)
    | Bad

  function Advance(p: Phase, s: RunState): Phase {
    match (p, s)
    case (Fresh, PLANNED) => Planned
    case (Planned, PLANNED) => Replanned
    case (Planned, SCHEDULED) => Ready(0)
    case (Replanned, SCHEDULED) => Ready(0)
    case (Ready(n), EXECUTING) => Busy(n)
    case (Busy(n), VERIFYING) => Ready(n + 1)
    case (Ready(n), COMMITTED) => if n > 0 then Done(n) else Bad
    case (Ready(n), FAILED) => if n > 0 then Done(n) else Bad
    case (Ready(n), CANCELLED) => Cut(n)
    case (Cut(n), FAILED) => if n > 0 then Done(n) else Bad
    case _ => Bad
  }

  function Parse(trace: seq<RunState>): Phase {
    if trace == [] then Fresh else Advance(Parse(trace[..|trace| - 1]), trace[|trace| - 1])
  }

  lemma ParseStep(trace: seq<RunState>, s: RunState)
    ensures Parse(trace + [s]) == Advance(Parse(trace), s)
  {
    assert (trace + [s])[..|trace|] == trace;
  }

  lemma ParseStart(resumed: bool)
    ensures Parse(Start(resumed)) == Ready(0)
  {
    ParseStep([], PLANNED);
    assert [] + [PLANNED] == [PLANNED];
    if resumed {
      ParseStep([PLANNED], PLANNED);
      ParseStep([PLANNED] + [PLANNED], SCHEDULED);
      assert Start(resumed) == [PLANNED] + [PLANNED] + [SCHEDULED];
    } else {
      ParseStep([PLANNED], SCHEDULED);
      assert Start(resumed) == [PLANNED] + [SCHEDULED];
    }
  }

  lemma {:induction false} ParseRounds(resumed: bool, n: nat)
    ensures Parse(Start(resumed) + Rounds(n)) == Ready(n)
  {
    if n == 0 {
      ParseStart(resumed);
      assert Start(resumed) + Rounds(0) == Start(resumed);
    } else {
      ParseRounds(resumed, n - 1);
      ParseRound(Start(resumed) + Rounds(n - 1), n - 1);
      assert Start(resumed) + Rounds(n) == Start(resumed) + Rounds(n - 1) + [EXECUTING, VERIFYING];
    }
  }

  lemma ParseRound(before: seq<RunState>, n: nat)
    requires Parse(before) == Ready(n)
    ensures Parse(before + [EXECUTING, VERIFYING]) == Ready(n + 1)
  {
    ParseStep(before, EXECUTING);
    ParseStep(before + [EXECUTING], VERIFYING);
    assert before + [EXECUTING, VERIFYING] == before + [EXECUTING] + [VERIFYING];
  }

  /** For every ranking, every outcome of execution and verification and every cancellation point:
      the execution is ok exactly when some backend wins, exactly when its trace ends in
      COMMITTED; its trace fits the grammar, with one round for each attempt; a trace that was cut
      short ends CANCELLED when nothing was attempted and CANCELLED FAILED otherwise; and the
      attempts are a prefix of the ranking whose last element is the result. */
  lemma ExecutionLaws(ranked: seq<Backend>, c: Constraints, resumed: bool, reached: nat -> bool, e: PilotExecution)
    requires ranked != [] && InOrder(reached) && Specified(ranked, c, resumed, reached, e)
    ensures e.Ok() <==> exists i: nat :: Wins(ranked, c, reached, i)
    ensures e.transitions != [] && (e.Ok() <==> e.transitions[|e.transitions| - 1] == COMMITTED)
    ensures e.attempts <= Results(ranked)
    ensures e.attempts != [] ==> e.result == e.attempts[|e.attempts| - 1]
    ensures var phase := Parse(e.transitions);
            phase == if e.attempts == [] then Cut(0) else Done(|e.attempts|)
    ensures forall j :: 0 <= j < |e.attempts| - 1 ==> !Acceptable(ranked[j], c)
  {
    if i: nat :| Wins(ranked, c, reached, i) {
      CommittedLaws(ranked, c, resumed, i, e);
    } else {
      var n := StoppingPoint(ranked, c, reached);
      forall j | 0 <= j < n ensures !Acceptable(ranked[j], c) { NoneAcceptable(ranked, c, reached, j, n); }
      NotCommittedLaws(ranked, c, resumed, n, e);
    }
  }

  lemma CommittedLaws(ranked: seq<Backend>, c: Constraints, resumed: bool, i: nat, e: PilotExecution)
    requires i < |ranked| && Acceptable(ranked[i], c) && CommittedAt(ranked, resumed, i, e)
    ensures e.Ok() && e.transitions != [] && e.transitions[|e.transitions| - 1] == COMMITTED
    ensures e.attempts <= Results(ranked) && |e.attempts| == i + 1 && e.result == e.attempts[i]
    ensures Parse(e.transitions) == Done(i + 1)
  {
    ParseRounds(resumed, i + 1);
    ParseStep(Start(resumed) + Rounds(i + 1), COMMITTED);
  }

  lemma NotCommittedLaws(ranked: seq<Backend>, c: Constraints, resumed: bool, n: nat, e: PilotExecution)
    requires ranked != [] && n <= |ranked| && NotCommitted(ranked, c, resumed, n, e)
    requires forall j :: 0 <= j < n ==> !Acceptable(ranked[j], c)
    ensures !e.Ok() && e.transitions != [] && e.transitions[|e.transitions| - 1] != COMMITTED
    ensures e.attempts <= Results(ranked) && |e.attempts| == n && (n > 0 ==> e.result == e.attempts[n - 1])
    ensures Parse(e.transitions) == if n == 0 then Cut(0) else Done(n)
  {
    FailedTrace(ranked, c, resumed, n, e);
    if n > 0 { VerifiedIff(c, e.result, ranked[n - 1].world); }
  }

  lemma NoneAcceptable(ranked: seq<Backend>, c: Constraints, reached: nat -> bool, j: nat, n: nat)
    requires StopsAfter(ranked, reached, n) && j < n && InOrder(reached)
    requires forall i: nat :: !Wins(ranked, c, reached, i)
    ensures !Acceptable(ranked[j], c)
  {
    if Acceptable(ranked[j], c) { FirstAcceptableWins(ranked, c, reached, j, n); }
  }

  lemma FailedTrace(ranked: seq<Backend>, c: Constraints, resumed: bool, n: nat, e: PilotExecution)
    requires ranked != [] && n <= |ranked| && NotCommitted(ranked, c, resumed, n, e)
    ensures Parse(e.transitions) == if n == 0 then Cut(0) else Done(n)
    ensures e.transitions != [] && e.transitions[|e.transitions| - 1] in {FAILED, CANCELLED}
  {
    hide Parse;
    ParseRounds(resumed, n);
    var before := Start(resumed) + Rounds(n);
    if n == 0 {
      assert before == Start(resumed);
      ParseStep(before, CANCELLED);
    } else if n < |ranked| {
      ParseStep(before, CANCELLED);
      ParseStep(before + [CANCELLED], FAILED);
      assert e.transitions == before + [CANCELLED] + [FAILED];
    } else {
      ParseStep(before, FAILED);
    }
  }

  /** If an attempt that is made is acceptable, somebody wins. */
  lemma {:induction false} FirstAcceptableWins(ranked: seq<Backend>, c: Constraints, reached: nat -> bool, j: nat,
                                               n: nat)
    requires n <= |ranked| && j < n && reached(n - 1) && InOrder(reached)
    requires Acceptable(ranked[j], c)
    ensures exists i: nat :: Wins(ranked, c, reached, i)
    decreases j
  {
    if i: nat :| i < j && Acceptable(ranked[i], c) {
      FirstAcceptableWins(ranked, c, reached, i, n);
    } else {
      assert reached(j);
      assert Wins(ranked, c, reached, j);
    }
  }
}
