/** Every run of processes, threads, readers and crashes on one document. */
module StateIoRuns {
  import opened Wrappers
  import opened StateLock
  import opened StateIo
  import opened Redaction

  function Run(s: Sys, events: seq<Event>): Option<Sys>
    decreases |events|
  {
    if events == [] then Some(s)
    else if !Enabled(s, events[0]) then None
    else Run(Do(s, events[0]), events[1..])
  }

  lemma {:induction false} RunKeepsInv(s: Sys, events: seq<Event>)
    requires Inv(s) && Run(s, events).Some?
    ensures Inv(Run(s, events).value)
    decreases |events|
  {
    if events != [] {
      StepKept(s, events[0]);
      RunKeepsInv(Do(s, events[0]), events[1..]);
    }
  }

  lemma InitialInv()
    ensures Inv(INITIAL)
  {
    assert forall th :: INITIAL.Stack(th) == [];
    assert forall pid: nat :: INITIAL.Lock(pid) == FREE;
  }

  /** In every reached state: at most one thread of one process is inside the critical section; the
      operating system's lock is held by exactly the process whose depth is positive; and the
      depth is the number of nested blocks of its owner that got both locks. */
  lemma LocksInEveryRun(events: seq<Event>, a: Thread, b: Thread)
    requires Run(INITIAL, events).Some?
    ensures var s := Run(INITIAL, events).value;
            && (InsideCount(s.Stack(a)) > 0 && InsideCount(s.Stack(b)) > 0 ==> a == b)
            && (s.osHolder == Some(a.pid) <==> s.Lock(a.pid).depth > 0)
            && (s.Lock(a.pid).fd <==> s.Lock(a.pid).depth > 0)
            && (InsideCount(s.Stack(a)) > 0 ==> s.Lock(a.pid).depth == InsideCount(s.Stack(a)))
            && (s.Lock(a.pid).owner == None ==> s.Lock(a.pid) == FREE)
  {
    InitialInv();
    RunKeepsInv(INITIAL, events);
  }

  /** In every reached state, whatever crashed: the file is whole and holds the last committed
      document; each committed document is what its block made of what it loaded, the version
      current at the load or, when the file could not be read, the default; commits that came
      between an update's load and its commit were made inside its own body by its own thread; and
      every unlocked read returned the version that was current when it opened the file, or the
      default when it failed. */
  lemma DocumentInEveryRun(events: seq<Event>)
    requires Run(INITIAL, events).Some?
    ensures var s := Run(INITIAL, events).value;
            && Readable(s, s.target) && Contents(s, s.target) == Version(s.log, |s.log|)
            && LogOk(s.log)
            && (forall i :: 0 <= i < |s.seen| ==> SightOk(s.log, s.seen[i]))
  {
    InitialInv();
    RunKeepsInv(INITIAL, events);
    var s := Run(INITIAL, events).value;
    if s.log != [] { assert Published(s, |s.log| - 1); }
  }

  /** One step changes the file only if it is a rename, and then to exactly one more committed
      document; a body that raises, a failed write and a crash at any point leave the old one. */
  lemma OnlyRenameChangesTheFile(s: Sys, e: Event)
    requires Inv(s) && Enabled(s, e)
    ensures var t := Do(s, e);
            && Readable(s, s.target) && Readable(t, t.target)
            && (if e.Replace? then
                  |t.log| == |s.log| + 1 && t.log[..|s.log|] == s.log
                  && Contents(t, t.target) == t.log[|s.log|].doc == s.Top(e.th).pc.data
                else t.log == s.log && Contents(t, t.target) == Contents(s, s.target))
  {
    StepKept(s, e);
    var t := Do(s, e);
    if s.log != [] { assert Published(s, |s.log| - 1); }
    if t.log != [] { assert Published(t, |t.log| - 1); }
  }

  /** Two states that differ in nothing a thread or process can see. */
  ghost predicate SameView(s: Sys, t: Sys) {
    && (forall p: nat :: t.Lock(p) == s.Lock(p)) && (forall th :: t.Stack(th) == s.Stack(th))
    && t.osHolder == s.osHolder && t.log == s.log && t.target == s.target && t.inodes == s.inodes
  }

  /** `t` is `s` but for one more block of `th`, which has the thread lock. */
  ghost predicate WaitsForOsLock(s: Sys, t: Sys, th: Thread, block: Block) {
    && t.Stack(th) == s.Stack(th) + [Frame(block, WantOsLock)]
    && t.Lock(th.pid) == ThreadAcquired(s.Lock(th.pid), th.tid)
    && (forall p: nat :: p != th.pid ==> t.Lock(p) == s.Lock(p))
    && (forall other :: other != th ==> t.Stack(other) == s.Stack(other))
    && t.osHolder == s.osHolder && t.log == s.log && t.target == s.target && t.inodes == s.inodes
  }

  lemma FailureUndoesEntry(s: Sys, t: Sys, th: Thread, block: Block)
    requires s.Lock(th.pid) == FREE && WaitsForOsLock(s, t, th, block)
    ensures Enabled(t, OsLockFails(th)) && SameView(s, Do(t, OsLockFails(th)))
  {
    OsLockFailure(t, th);
    hide Do;
    assert t.Stack(th)[..|s.Stack(th)|] == s.Stack(th);
  }

  lemma EntersAndWaits(s: Sys, th: Thread, block: Block)
    requires Enabled(s, Enter(th, block)) && Available(s.Lock(th.pid), th.tid)
    ensures var entered := Do(s, Enter(th, block));
            && Enabled(entered, TakeThreadLock(th))
            && WaitsForOsLock(s, Do(entered, TakeThreadLock(th)), th, block)
  {
    var entered := Do(s, Enter(th, block));
    assert entered.Stack(th) == s.Stack(th) + [Frame(block, WantThreadLock)];
    assert entered.Lock(th.pid) == s.Lock(th.pid);
    var waiting := Do(entered, TakeThreadLock(th));
    assert waiting.Stack(th) == s.Stack(th) + [Frame(block, WantOsLock)];
  }

  lemma OsLockFailure(s: Sys, th: Thread)
    requires Enabled(s, OsLockFails(th))
    ensures var t := Do(s, OsLockFails(th));
            && t.Stack(th) == s.Stack(th)[..|s.Stack(th)| - 1]
            && t.Lock(th.pid) == ThreadReleased(s.Lock(th.pid))
            && (forall p: nat :: p != th.pid ==> t.Lock(p) == s.Lock(p))
            && (forall other :: other != th ==> t.Stack(other) == s.Stack(other))
            && t.osHolder == s.osHolder && t.log == s.log && t.target == s.target && t.inodes == s.inodes
  {
  }

  lemma UnheldIsFree(s: Sys, th: Thread)
    requires LocksOk(s) && (s.Stack(th) == [] || InBody(s.Top(th)))
    requires Available(s.Lock(th.pid), th.tid) && s.Lock(th.pid).depth == 0
    ensures s.Lock(th.pid) == FREE
  {
    assert WellNested(s.Stack(th));
    assert Thread(th.pid, th.tid) == th;
  }

  /** Entering a block whose operating-system lock cannot be taken leaves every lock, every stack
      and every file as it was. */
  lemma OsFailureLeavesNoTrace(s: Sys, th: Thread, block: Block)
    requires Inv(s) && Enabled(s, Enter(th, block))
    requires Available(s.Lock(th.pid), th.tid) && s.Lock(th.pid).depth == 0
    ensures var entered := Do(s, Enter(th, block));
            && Enabled(entered, TakeThreadLock(th))
            && var waiting := Do(entered, TakeThreadLock(th));
               Enabled(waiting, OsLockFails(th)) && SameView(s, Do(waiting, OsLockFails(th)))
  {
    UnheldIsFree(s, th);
    EntersAndWaits(s, th, block);
    hide Do, Enabled, SameView, WaitsForOsLock;
    FailureUndoesEntry(s, Do(Do(s, Enter(th, block)), TakeThreadLock(th)), th, block);
  }

  // ---------- serial histories ----------

  /** What a block alone makes of a document; a body that raises leaves it. */
  function Applied(block: Block, doc: Doc): Doc {
    match block
    case Save(data) => data
    case Update(body) => if body(doc).Some? then body(doc).value else doc
    case Hold => doc
  }

  /** The committed blocks applied one after another, in the order in which they held the lock. */
  function Replay(log: seq<Commit>, k: nat): Doc
    requires k <= |log|
  {
    if k == 0 then DEFAULT else Applied(log[k - 1].block, Replay(log, k - 1))
  }

  /** Commit `i` makes of what its block loaded the same as of the version just before it. */
  predicate Unseen(log: seq<Commit>, i: nat)
    requires i < |log|
  {
    var c := log[i];
    c.base <= |log| && Applied(c.block, Loaded(log, c.base, c.failed)) == Applied(c.block, Version(log, i))
  }

  predicate SerialUpTo(log: seq<Commit>, n: nat)
    requires n <= |log|
  {
    forall k :: 0 <= k <= n ==> Version(log, k) == Replay(log, k)
  }

  lemma OneMoreCommit(log: seq<Commit>, n: nat)
    requires LogOk(log) && 0 < n <= |log| && Version(log, n - 1) == Replay(log, n - 1)
    ensures Version(log, n) == Replay(log, n) <==> Unseen(log, n - 1)
  {
    assert Faithful(log, n - 1);
  }

  lemma {:induction false} UnseenIsSerial(log: seq<Commit>, n: nat)
    requires LogOk(log) && n <= |log| && forall i :: 0 <= i < n ==> Unseen(log, i)
    ensures Version(log, n) == Replay(log, n)
  {
    if n > 0 {
      UnseenIsSerial(log, n - 1);
      OneMoreCommit(log, n);
    }
  }

  lemma SerialUpToIff(log: seq<Commit>, n: nat)
    requires LogOk(log) && n <= |log|
    ensures SerialUpTo(log, n) <==> forall i :: 0 <= i < n ==> Unseen(log, i)
  {
    hide LogOk, Version, Replay, Unseen;
    if SerialUpTo(log, n) {
      forall i | 0 <= i < n ensures Unseen(log, i) { OneMoreCommit(log, i + 1); }
    }
    if forall i :: 0 <= i < n ==> Unseen(log, i) {
      forall k | 0 <= k <= n ensures Version(log, k) == Replay(log, k) { UnseenIsSerial(log, k); }
    }
  }

  /** In every run, whatever nests, fails or crashes: the document is always the committed blocks
      applied one after another in lock order if and only if no block sees the difference between
      what it loaded and the version just before its commit. */
  lemma SerialIffUnseen(events: seq<Event>)
    requires Run(INITIAL, events).Some?
    ensures var log := Run(INITIAL, events).value.log;
            SerialUpTo(log, |log|) <==> forall i :: 0 <= i < |log| ==> Unseen(log, i)
  {
    InitialInv();
    RunKeepsInv(INITIAL, events);
    var log := Run(INITIAL, events).value.log;
    SerialUpToIff(log, |log|);
  }

  /** No thread enters a `save` or `update` from inside the body of an `update`. */
  predicate NestsNoWriter(s: Sys, e: Event) {
    e.Enter? && !e.block.Hold? ==> forall i :: 0 <= i < |s.Stack(e.th)| ==> !s.Stack(e.th)[i].block.Update?
  }

  /** No load fails once a document has been committed. */
  predicate FailsNoLoad(s: Sys, e: Event) { e.LoadFails? ==> s.log == [] }

  predicate NeverFailsLoads(s: Sys, events: seq<Event>)
    requires Run(s, events).Some?
    decreases |events|
  {
    events == [] || (FailsNoLoad(s, events[0]) && NeverFailsLoads(Do(s, events[0]), events[1..]))
  }

  predicate NeverNestsWriters(s: Sys, events: seq<Event>)
    requires Run(s, events).Some?
    decreases |events|
  {
    events == [] || (NestsNoWriter(s, events[0]) && NeverNestsWriters(Do(s, events[0]), events[1..]))
  }

  predicate FlatStack(st: seq<Frame>) {
    forall i, j :: 0 <= i < j < |st| ==> !(st[i].block.Update? && !st[j].block.Hold?)
  }

  predicate HasData(pc: Pc) { pc.Body? || pc.Write? || pc.Fill? || pc.Rename? }

  /** Stacks nest no writers, data in hand is up to date, and every commit was based on the one
      before it, by a block that writes. */
  ghost predicate Serial(s: Sys) {
    && (forall th :: FlatStack(s.Stack(th)))
    && (forall th, i :: 0 <= i < |s.Stack(th)| && HasData(s.Stack(th)[i].pc) ==> s.Stack(th)[i].pc.base == |s.log|)
    && (forall i :: 0 <= i < |s.log| ==> s.log[i].base == i)
  }

  /** The blocks on each stack keep their order, whatever the step. */
  lemma StackShapes(s: Sys, e: Event, th: Thread)
    requires Enabled(s, e)
    ensures var st, after := s.Stack(th), Do(s, e).Stack(th);
            || (|after| <= |st| && forall i :: 0 <= i < |after| ==> after[i].block == st[i].block)
            || (e.Enter? && e.th == th && after == st + [Frame(e.block, WantThreadLock)])
  {
  }

  lemma FlatKept(s: Sys, e: Event)
    requires Serial(s) && Enabled(s, e) && NestsNoWriter(s, e)
    ensures forall th :: FlatStack(Do(s, e).Stack(th))
  {
    forall th
      ensures FlatStack(Do(s, e).Stack(th))
    {
      StackShapes(s, e, th);
      assert FlatStack(s.Stack(th));
    }
  }

  predicate MovesThread(e: Event, th: Thread) {
    !e.Crash? && !e.ReaderOpens? && !e.ReaderReads? && !e.ReaderFails? && e.th == th
  }

  lemma OtherBlocksStay(s: Sys, e: Event, th: Thread, i: nat)
    requires Enabled(s, e) && i < |Do(s, e).Stack(th)| && (MovesThread(e, th) ==> i + 1 < |s.Stack(th)|)
    ensures i < |s.Stack(th)| && Do(s, e).Stack(th)[i] == s.Stack(th)[i]
  {
  }

  lemma MovedBlockData(s: Sys, e: Event, th: Thread, i: nat)
    requires Enabled(s, e) && MovesThread(e, th) && i + 1 >= |s.Stack(th)|
    requires i < |Do(s, e).Stack(th)| && HasData(Do(s, e).Stack(th)[i].pc)
    ensures var pc := Do(s, e).Stack(th)[i].pc;
            || ((e.Load? || e.LoadFails? || e.StartSave?) && pc.base == |s.log| && (pc.failed ==> e.LoadFails?))
            || (i < |s.Stack(th)| && HasData(s.Stack(th)[i].pc) && !e.Replace?
                && s.Stack(th)[i].pc.base == pc.base && s.Stack(th)[i].pc.failed == pc.failed)
  {
  }

  /** Other blocks keep their data; the one that moves has data only if it had it, or has just
      loaded it or started saving. */
  lemma DataMoves(s: Sys, e: Event, th: Thread, i: nat)
    requires Enabled(s, e) && i < |Do(s, e).Stack(th)| && HasData(Do(s, e).Stack(th)[i].pc)
    ensures var pc := Do(s, e).Stack(th)[i].pc;
            || ((e.Load? || e.LoadFails? || e.StartSave?) && pc.base == |s.log| && (pc.failed ==> e.LoadFails?))
            || (i < |s.Stack(th)| && HasData(s.Stack(th)[i].pc)
                && s.Stack(th)[i].pc.base == pc.base && s.Stack(th)[i].pc.failed == pc.failed
                && (e.Replace? ==> e.th != th || i != |s.Stack(th)| - 1))
  {
    hide Enabled, Do;
    if MovesThread(e, th) && i + 1 >= |s.Stack(th)| {
      MovedBlockData(s, e, th, i);
    } else {
      OtherBlocksStay(s, e, th, i);
    }
  }

  lemma SerialKept(s: Sys, e: Event)
    requires Inv(s) && Serial(s) && Enabled(s, e) && NestsNoWriter(s, e)
    ensures Serial(Do(s, e))
  {
    var t := Do(s, e);
    FlatKept(s, e);
    forall th, i | 0 <= i < |t.Stack(th)| && HasData(t.Stack(th)[i].pc)
      ensures t.Stack(th)[i].pc.base == |t.log|
    {
      DataMoves(s, e, th, i);
      if e.Replace? { NoOtherData(s, e.th, th, i); }
    }
    if e.Replace? {
      assert WellNested(s.Stack(e.th));
      var top := |s.Stack(e.th)| - 1;
      assert HasData(s.Stack(e.th)[top].pc) && s.Stack(e.th)[top].pc.base == |s.log|;
    }
  }

  /** While one block is about to commit, no other block has data in hand. */
  lemma NoOtherData(s: Sys, writer: Thread, th: Thread, i: nat)
    requires Inv(s) && Serial(s) && s.Running(writer) && s.Top(writer).pc.Rename?
    requires i < |s.Stack(th)| && (th != writer || i != |s.Stack(writer)| - 1)
    ensures !HasData(s.Stack(th)[i].pc)
  {
    assert WellNested(s.Stack(th)) && WellNested(s.Stack(writer)) && FlatStack(s.Stack(writer));
    if HasData(s.Stack(th)[i].pc) { MutualExclusion(s, th, writer); }
  }

  lemma {:induction false} RunStaysSerial(s: Sys, events: seq<Event>)
    requires Inv(s) && Serial(s) && Run(s, events).Some? && NeverNestsWriters(s, events)
    ensures Inv(Run(s, events).value) && Serial(Run(s, events).value)
    decreases |events|
  {
    if events != [] {
      StepKept(s, events[0]);
      SerialKept(s, events[0]);
      RunStaysSerial(Do(s, events[0]), events[1..]);
    }
  }

  /** A commit of a serial run is unseen exactly when its load succeeded or failed harmlessly. */
  predicate Harmless(log: seq<Commit>, i: nat)
    requires i < |log|
  {
    log[i].failed ==> Applied(log[i].block, DEFAULT) == Applied(log[i].block, Version(log, i))
  }

  /** In every run in which no writer is entered inside an update's body -- any number of threads
      and processes, unlocked readers, failures and crashes anywhere -- the document is always the
      committed blocks applied one after another in lock order if and only if every block whose
      load failed makes the same of the default as of the version it did not get to see. */
  lemma FlatRunsAreSerialIff(events: seq<Event>)
    requires Run(INITIAL, events).Some? && NeverNestsWriters(INITIAL, events)
    ensures var log := Run(INITIAL, events).value.log;
            SerialUpTo(log, |log|) <==> forall i :: 0 <= i < |log| ==> Harmless(log, i)
  {
    InitialInv();
    assert forall th :: INITIAL.Stack(th) == [];
    RunStaysSerial(INITIAL, events);
    SerialIffUnseen(events);
    var log := Run(INITIAL, events).value.log;
    assert forall i :: 0 <= i < |log| ==> (Unseen(log, i) <==> Harmless(log, i));
  }

  /** What was read without success was read before there was anything to read. */
  ghost predicate FailedFirst(s: Sys) {
    && (forall th, i :: 0 <= i < |s.Stack(th)| && HasData(s.Stack(th)[i].pc) ==>
          s.Stack(th)[i].pc.failed ==> s.Stack(th)[i].pc.base == 0)
    && (forall i :: 0 <= i < |s.log| && s.log[i].failed ==> s.log[i].base == 0)
  }

  lemma FailedFirstKept(s: Sys, e: Event)
    requires FailedFirst(s) && Enabled(s, e) && FailsNoLoad(s, e)
    ensures FailedFirst(Do(s, e))
  {
    var t := Do(s, e);
    forall th, i | 0 <= i < |t.Stack(th)| && HasData(t.Stack(th)[i].pc)
      ensures t.Stack(th)[i].pc.failed ==> t.Stack(th)[i].pc.base == 0
    {
      DataMoves(s, e, th, i);
    }
    if e.Replace? {
      var top := |s.Stack(e.th)| - 1;
      assert HasData(s.Stack(e.th)[top].pc);
    }
  }

  lemma {:induction false} RunStaysFailedFirst(s: Sys, events: seq<Event>)
    requires FailedFirst(s) && Run(s, events).Some? && NeverFailsLoads(s, events)
    ensures FailedFirst(Run(s, events).value)
    decreases |events|
  {
    if events != [] {
      FailedFirstKept(s, events[0]);
      RunStaysFailedFirst(Do(s, events[0]), events[1..]);
    }
  }

  /** Without nested writers, and while no load fails once there is a document, no update is lost:
      the document is the committed blocks applied one after another in lock order. */
  lemma NoUpdateIsLost(events: seq<Event>)
    requires Run(INITIAL, events).Some?
    requires NeverNestsWriters(INITIAL, events) && NeverFailsLoads(INITIAL, events)
    ensures var s := Run(INITIAL, events).value;
            && Readable(s, s.target)
            && Contents(s, s.target) == Replay(s.log, |s.log|)
  {
    InitialInv();
    assert forall th :: INITIAL.Stack(th) == [];
    RunStaysSerial(INITIAL, events);
    RunStaysFailedFirst(INITIAL, events);
    DocumentInEveryRun(events);
    FlatRunsAreSerialIff(events);
    var s := Run(INITIAL, events).value;
    forall i | 0 <= i < |s.log| ensures Harmless(s.log, i) { assert s.log[i].base == i; }
    assert SerialUpTo(s.log, |s.log|);
  }

  // ---------- nested updates ----------

  /** `th` has `|st|` nested blocks, all inside the critical section, and nobody else is. */
  ghost predicate At(s: Sys, th: Thread, st: seq<Frame>) {
    && s.Stack(th) == st
    && s.Lock(th.pid) == (if st == [] then FREE else LockState(Some(th.tid), |st|, |st|, true))
    && s.osHolder == (if st == [] then None else Some(th.pid))
  }

  ghost predicate SameFiles(s: Sys, t: Sys) { t.log == s.log && t.target == s.target && t.inodes == s.inodes }

  /** Entering a block, taking both locks or re-entering. */
  lemma EntersBlock(s: Sys, th: Thread, st: seq<Frame>, block: Block) returns (events: seq<Event>, t: Sys)
    requires At(s, th, st) && (st != [] ==> InBody(st[|st| - 1]))
    ensures Run(s, events) == Some(t)
    ensures At(t, th, st + [Frame(block, Held)]) && SameFiles(s, t)
  {
    var s1 := Do(s, Enter(th, block));
    assert s1.Stack(th) == st + [Frame(block, WantThreadLock)] && s1.Lock(th.pid) == s.Lock(th.pid);
    var s2 := Do(s1, TakeThreadLock(th));
    assert s2.Stack(th) == st + [Frame(block, WantOsLock)];
    assert s2.Lock(th.pid) == ThreadAcquired(s.Lock(th.pid), th.tid);
    var e := if st == [] then TakeOsLock(th) else Reenter(th);
    t := Do(s2, e);
    assert t.Stack(th) == st + [Frame(block, Held)];
    events := [Enter(th, block), TakeThreadLock(th), e];
    RunThree(s, events);
  }

  lemma RunThree(s: Sys, events: seq<Event>)
    requires |events| == 3 && Enabled(s, events[0])
    requires var s1 := Do(s, events[0]);
             Enabled(s1, events[1]) && Enabled(Do(s1, events[1]), events[2])
    ensures Run(s, events) == Some(Do(Do(Do(s, events[0]), events[1]), events[2]))
  {
    var s1 := Do(s, events[0]);
    var s2 := Do(s1, events[1]);
    assert Run(s2, events[2..]) == Run(Do(s2, events[2]), events[3..]);
    assert events[1..][1..] == events[2..];
  }

  lemma RunOne(s: Sys, e: Event)
    requires Enabled(s, e)
    ensures Run(s, [e]) == Some(Do(s, e))
  {
    assert [e][1..] == [];
  }

  lemma {:induction false} RunBoth(s: Sys, a: seq<Event>, b: seq<Event>)
    requires Run(s, a).Some?
    ensures Run(s, a + b) == Run(Run(s, a).value, b)
    decreases |a|
  {
    if a == [] {
      assert a + b == b;
    } else {
      assert (a + b)[1..] == a[1..] + b;
      RunBoth(Do(s, a[0]), a[1..], b);
    }
  }

  /** Entering an update and loading the document. */
  lemma BeginsUpdate(s: Sys, th: Thread, st: seq<Frame>, body: Doc -> Option<Doc>)
      returns (events: seq<Event>, t: Sys)
    requires At(s, th, st) && (st != [] ==> InBody(st[|st| - 1])) && Readable(s, s.target)
    ensures Run(s, events) == Some(t) && SameFiles(s, t)
    ensures At(t, th, st + [Frame(Update(body), Body(Contents(s, s.target), |s.log|, false))])
  {
    var u;
    events, u := EntersBlock(s, th, st, Update(body));
    t := Do(u, Load(th));
    assert t.Stack(th) == st + [Frame(Update(body), Body(Contents(s, s.target), |s.log|, false))];
    RunOne(u, Load(th));
    RunBoth(s, events, [Load(th)]);
    events := events + [Load(th)];
  }

  /** Finishing an update: the body returns, the temporary file is written and renamed, the locks
      are released. */
  lemma FinishesUpdate(s: Sys, th: Thread, st: seq<Frame>, f: Frame, ino: nat) returns (events: seq<Event>, t: Sys)
    requires f.block.Update? && f.pc.Body? && At(s, th, st + [f]) && ino !in s.inodes
    requires f.block.body(f.pc.loaded).Some?
    ensures Run(s, events) == Some(t) && At(t, th, st)
    ensures var doc := f.block.body(f.pc.loaded).value;
            && t.log == s.log + [Commit(th, |st|, f.block, f.pc.base, f.pc.failed, doc, ino)]
            && t.target == Some(ino) && t.inodes == s.inodes[ino := Whole(doc)]
  {
    var doc, base, failed := f.block.body(f.pc.loaded).value, f.pc.base, f.pc.failed;
    var s1 := Do(s, BodyReturns(th));
    assert s1.Stack(th) == st + [Frame(f.block, Write(doc, base, failed))];
    var s2 := Do(s1, CreateTemp(th, ino));
    assert s2.Stack(th) == st + [Frame(f.block, Fill(doc, base, failed, ino))];
    var s3 := Do(s2, FillTemp(th));
    assert s3.Stack(th) == st + [Frame(f.block, Rename(doc, base, failed, ino))];
    assert s3.inodes == s.inodes[ino := Whole(doc)];
    RunThree(s, [BodyReturns(th), CreateTemp(th, ino), FillTemp(th)]);
    var more;
    more, t := CommitsAndLeaves(s3, th, st, Frame(f.block, Rename(doc, base, failed, ino)));
    RunBoth(s, [BodyReturns(th), CreateTemp(th, ino), FillTemp(th)], more);
    events := [BodyReturns(th), CreateTemp(th, ino), FillTemp(th)] + more;
  }

  lemma CommitsAndLeaves(s: Sys, th: Thread, st: seq<Frame>, f: Frame) returns (events: seq<Event>, t: Sys)
    requires f.pc.Rename? && At(s, th, st + [f])
    ensures Run(s, events) == Some(t) && At(t, th, st)
    ensures t.log == s.log + [Commit(th, |st|, f.block, f.pc.base, f.pc.failed, f.pc.data, f.pc.ino)]
    ensures t.target == Some(f.pc.ino) && t.inodes == s.inodes
  {
    var s1 := Do(s, Replace(th));
    assert s1.Stack(th) == st + [Frame(f.block, Leaving)];
    t := Do(s1, Leave(th));
    assert t.Stack(th) == st;
    RunOne(s1, Leave(th));
    RunOne(s, Replace(th));
    RunBoth(s, [Replace(th)], [Leave(th)]);
    events := [Replace(th)] + [Leave(th)];
  }

  /** An update entered inside another update's body on the same path is overwritten.  From any
      state, with any two bodies: both commit, and the document ends as the outer body applied to
      what it loaded before the inner one committed.  It is the serial result exactly when the
      outer body does not see the difference. */
  lemma NestedUpdateIsOverwritten(s: Sys, th: Thread, outer: Doc -> Option<Doc>, inner: Doc -> Option<Doc>,
                                  i: nat, j: nat)
      returns (events: seq<Event>, t: Sys)
    requires At(s, th, []) && Readable(s, s.target) && i !in s.inodes && j !in s.inodes && i != j
    requires outer(Contents(s, s.target)).Some? && inner(Contents(s, s.target)).Some?
    ensures Run(s, events) == Some(t) && |t.log| == |s.log| + 2
    ensures var doc := Contents(s, s.target);
            && Readable(t, t.target) && Contents(t, t.target) == outer(doc).value
            && t.log[|s.log|].doc == inner(doc).value
            && (outer(inner(doc).value) == Some(Contents(t, t.target))
                <==> outer(inner(doc).value) == outer(doc))
  {
    var doc, n := Contents(s, s.target), |s.log|;
    var f, g := Frame(Update(outer), Body(doc, n, false)), Frame(Update(inner), Body(doc, n, false));
    var e1, s1 := BeginsUpdate(s, th, [], outer);
    assert [] + [f] == [f];
    var e2, s2 := BeginsUpdate(s1, th, [f], inner);
    var e3, s3 := FinishesUpdate(s2, th, [f], g, i);
    var e4, s4 := FinishesUpdate(s3, th, [], f, j);
    RunBoth(s, e1, e2);
    RunBoth(s, e1 + e2, e3);
    RunBoth(s, e1 + e2 + e3, e4);
    events, t := e1 + e2 + e3 + e4, s4;
  }

  function Count(n: int): Doc { Obj(map["count" := Num(n as real)]) }

  function Increment(d: Doc): Option<Doc> {
    Some(if "count" in d.fields && d.fields["count"].Num? then Count(d.fields["count"].n.Floor + 1) else Count(1))
  }

  /** A counter incremented twice this way counts one. */
  lemma NestedIncrementLosesOne() returns (events: seq<Event>)
    ensures var end := Run(INITIAL, events);
            end.Some? && |end.value.log| == 2 && Readable(end.value, end.value.target)
            && Contents(end.value, end.value.target) == Count(1)
  {
    var t;
    events, t := NestedUpdateIsOverwritten(INITIAL, Thread(0, 0), Increment, Increment, 0, 1);
  }

  // ---------- loads that fail ----------

  /** An update whose load fails starts from the default and commits: whatever was committed before
      is gone.  The result is the serial one exactly when the body does not see the difference. */
  lemma FailedLoadOverwrites(s: Sys, th: Thread, body: Doc -> Option<Doc>, ino: nat)
      returns (events: seq<Event>, t: Sys)
    requires At(s, th, []) && Readable(s, s.target) && ino !in s.inodes && body(DEFAULT).Some?
    ensures Run(s, events) == Some(t) && At(t, th, []) && |t.log| == |s.log| + 1
    ensures t.inodes.Keys == s.inodes.Keys + {ino}
    ensures && Readable(t, t.target) && Contents(t, t.target) == body(DEFAULT).value
            && t.log[..|s.log|] == s.log && t.log[|s.log|].failed
            && (body(Contents(s, s.target)) == Some(Contents(t, t.target))
                <==> body(Contents(s, s.target)) == body(DEFAULT))
  {
    var f := Frame(Update(body), Body(DEFAULT, |s.log|, true));
    var e1, u := EntersBlock(s, th, [], Update(body));
    var v := Do(u, LoadFails(th));
    assert v.Stack(th) == [] + [f];
    RunOne(u, LoadFails(th));
    RunBoth(s, e1, [LoadFails(th)]);
    var e2;
    e2, t := FinishesUpdate(v, th, [], f, ino);
    RunBoth(s, e1 + [LoadFails(th)], e2);
    events := e1 + [LoadFails(th)] + e2;
  }

  /** An update that nothing disturbs. */
  lemma PlainUpdate(s: Sys, th: Thread, body: Doc -> Option<Doc>, ino: nat) returns (events: seq<Event>, t: Sys)
    requires At(s, th, []) && Readable(s, s.target) && ino !in s.inodes && body(Contents(s, s.target)).Some?
    ensures Run(s, events) == Some(t) && At(t, th, []) && |t.log| == |s.log| + 1
    ensures t.inodes.Keys == s.inodes.Keys + {ino}
    ensures Readable(t, t.target) && Contents(t, t.target) == body(Contents(s, s.target)).value
  {
    var f := Frame(Update(body), Body(Contents(s, s.target), |s.log|, false));
    var e1, u := BeginsUpdate(s, th, [], body);
    assert [] + [f] == [f];
    var e2;
    e2, t := FinishesUpdate(u, th, [], f, ino);
    RunBoth(s, e1, e2);
    events := e1 + e2;
  }

  /** A counter at two drops to one when the third increment cannot read the file. */
  lemma FailedLoadLosesTwo() returns (events: seq<Event>)
    ensures var end := Run(INITIAL, events);
            end.Some? && |end.value.log| == 3 && Readable(end.value, end.value.target)
            && Contents(end.value, end.value.target) == Count(1)
  {
    var th := Thread(0, 0);
    var e1, s1 := PlainUpdate(INITIAL, th, Increment, 0);
    var e2, s2 := PlainUpdate(s1, th, Increment, 1);
    var e3, s3 := FailedLoadOverwrites(s2, th, Increment, 2);
    RunBoth(INITIAL, e1, e2);
    RunBoth(INITIAL, e1 + e2, e3);
    events := e1 + e2 + e3;
  }
}
