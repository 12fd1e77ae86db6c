/** Processes and threads that update one JSON document through its lock, readers that do not,
    and crashes (ghostchimera/state_io.py).

    One path is modelled.  A step is one thing another thread or process can see: a lock taken or
    released, a file read, a temporary file created, filled or renamed. */
module StateIo {
  import opened Wrappers
  import opened StateLock
  import opened Redaction

  /** The store's default is an empty dictionary, so its documents are objects. */
  type Doc = d: Json | d.Obj? witness Obj(map[])

  datatype Thread = Thread(pid: nat, tid: nat)

  /** A `with` block on the path: plain locking, `save(data)`, or `update()` whose body computes
      the new document from the one it was given, or raises. */
  datatype Block = Hold | Save(data: Doc) | Update(body: Doc -> Option<Doc>)

  /** How far a block has come.  `base` counts the commits that preceded the moment its data was
      fixed: the load of an update, the start of a save.  `failed` says that the load could not
      read the file and returned the default. */
  datatype Pc =
    | WantThreadLock
    | WantOsLock
    | Held
    | Body(loaded: Doc, base: nat, failed: bool)
    | Write(data: Doc, base: nat, failed: bool)
    | Fill(data: Doc, base: nat, failed: bool, ino: nat)
    | Rename(data: Doc, base: nat, failed: bool, ino: nat)
    | Leaving

  datatype Frame = Frame(block: Block, pc: Pc)

  datatype Content = Partial | Whole(doc: Doc)

  /** One rename over the target: who did it, at what nesting level, from what, with what. */
  datatype Commit = Commit(thread: Thread, level: nat, block: Block, base: nat, failed: bool, doc: Doc, ino: nat)

  /** An unlocked `load()`: it has opened the file that was the target after `at` commits. */
  datatype Reader = Reader(at: nat, ino: Option<nat>)

  /** What such a load returned: the file it opened, or the default when it could not be read. */
  datatype Sight = Sight(at: nat, failed: bool, doc: Doc)

  datatype Sys = Sys(
    locks: map<nat, LockState>,
    osHolder: Option<nat>,
    stacks: map<Thread, seq<Frame>>,
    inodes: map<nat, Content>,
    target: Option<nat>,
    log: seq<Commit>,
    readers: map<nat, Reader>,
    seen: seq<Sight>)
  {
    function Lock(pid: nat): LockState { if pid in locks then locks[pid] else FREE }
    function Stack(th: Thread): seq<Frame> { if th in stacks then stacks[th] else [] }
    predicate Running(th: Thread) { Stack(th) != [] }
    function Top(th: Thread): Frame requires Running(th) { Stack(th)[|Stack(th)| - 1] }

    function WithLock(pid: nat, l: LockState): Sys {
      this.(locks := if l == FREE then locks - {pid} else locks[pid := l])
    }
    function WithStack(th: Thread, st: seq<Frame>): Sys {
      this.(stacks := if st == [] then stacks - {th} else stacks[th := st])
    }
    function WithTop(th: Thread, pc: Pc): Sys
      requires Running(th)
    {
      WithStack(th, Stack(th)[|Stack(th)| - 1 := Top(th).(pc := pc)])
    }
    function Popped(th: Thread): Sys
      requires Running(th)
    {
      WithStack(th, Stack(th)[..|Stack(th)| - 1])
    }
  }

  const INITIAL := Sys(map[], None, map[], map[], None, [], map[], [])

  /** What `load` returns while there is no file. */
  const DEFAULT: Doc := Obj(map[])

  /** The document after the first `k` commits. */
  function Version(log: seq<Commit>, k: nat): Doc
    requires k <= |log|
  {
    if k == 0 then DEFAULT else log[k - 1].doc
  }

  /** What a load returns when `base` commits have been made. */
  function Loaded(log: seq<Commit>, base: nat, failed: bool): Doc
    requires base <= |log|
  {
    if failed then DEFAULT else Version(log, base)
  }

  /** A block's body is running, so the thread may enter another block. */
  predicate InBody(f: Frame) { (f.block.Hold? && f.pc.Held?) || (f.block.Update? && f.pc.Body?) }

  datatype Event =
    | Enter(th: Thread, block: Block)
    | TakeThreadLock(th: Thread)
    | TakeOsLock(th: Thread)
    | OsLockFails(th: Thread)
    | Reenter(th: Thread)
    | Load(th: Thread)
    | LoadFails(th: Thread)
    | StartSave(th: Thread)
    | BodyReturns(th: Thread)
    | BodyRaises(th: Thread)
    | CreateTemp(th: Thread, ino: nat)
    | FillTemp(th: Thread)
    | WriteFails(th: Thread)
    | Replace(th: Thread)
    | Leave(th: Thread)
    | ReaderOpens(reader: nat)
    | ReaderReads(reader: nat)
    | ReaderFails(reader: nat)
    | Crash(pid: nat)

  /** What the file system shows under the target path. */
  predicate Readable(s: Sys, ino: Option<nat>) { ino.Some? ==> ino.value in s.inodes && s.inodes[ino.value].Whole? }

  function Contents(s: Sys, ino: Option<nat>): Doc
    requires Readable(s, ino)
  {
    if ino.None? then DEFAULT else s.inodes[ino.value].doc
  }

  predicate Enabled(s: Sys, e: Event) {
    match e
    case Enter(th, block) => s.Stack(th) == [] || InBody(s.Top(th))
    case TakeThreadLock(th) => s.Running(th) && s.Top(th).pc.WantThreadLock? && Available(s.Lock(th.pid), th.tid)
    case TakeOsLock(th) =>
      s.Running(th) && s.Top(th).pc.WantOsLock? && s.Lock(th.pid).depth == 0 && s.osHolder == None
    case OsLockFails(th) =>
      s.Running(th) && s.Top(th).pc.WantOsLock? && s.Lock(th.pid).depth == 0 && s.Lock(th.pid).count > 0
    case Reenter(th) => s.Running(th) && s.Top(th).pc.WantOsLock? && s.Lock(th.pid).depth > 0
    case Load(th) => s.Running(th) && s.Top(th).pc.Held? && s.Top(th).block.Update? && Readable(s, s.target)
    case LoadFails(th) => s.Running(th) && s.Top(th).pc.Held? && s.Top(th).block.Update?
    case StartSave(th) => s.Running(th) && s.Top(th).pc.Held? && s.Top(th).block.Save?
    case BodyReturns(th) =>
      && s.Running(th) && s.Top(th).pc.Body? && s.Top(th).block.Update?
      && s.Top(th).block.body(s.Top(th).pc.loaded).Some?
    case BodyRaises(th) => s.Running(th) && InBody(s.Top(th))
    case CreateTemp(th, ino) => s.Running(th) && s.Top(th).pc.Write? && ino !in s.inodes
    case FillTemp(th) => s.Running(th) && s.Top(th).pc.Fill?
    case WriteFails(th) => s.Running(th) && (s.Top(th).pc.Write? || s.Top(th).pc.Fill? || s.Top(th).pc.Rename?)
    case Replace(th) => s.Running(th) && s.Top(th).pc.Rename?
    case Leave(th) =>
      s.Running(th) && s.Top(th).pc.Leaving? && s.Lock(th.pid).count > 0 && s.Lock(th.pid).depth > 0
    case ReaderOpens(reader) => reader !in s.readers
    case ReaderReads(reader) => reader in s.readers && Readable(s, s.readers[reader].ino)
    case ReaderFails(reader) => reader in s.readers
    case Crash(pid) => true
  }

  function Do(s: Sys, e: Event): Sys
    requires Enabled(s, e)
  {
    match e
    case Enter(th, block) => s.WithStack(th, s.Stack(th) + [Frame(block, WantThreadLock)])
    case TakeThreadLock(th) => s.WithLock(th.pid, ThreadAcquired(s.Lock(th.pid), th.tid)).WithTop(th, WantOsLock)
    case TakeOsLock(th) => s.WithLock(th.pid, OsAcquired(s.Lock(th.pid))).WithTop(th, Held).(osHolder := Some(th.pid))
    case OsLockFails(th) => s.WithLock(th.pid, ThreadReleased(s.Lock(th.pid))).Popped(th)
    case Reenter(th) => s.WithLock(th.pid, Deeper(s.Lock(th.pid))).WithTop(th, Held)
    case Load(th) => s.WithTop(th, Body(Contents(s, s.target), |s.log|, false))
    case LoadFails(th) => s.WithTop(th, Body(DEFAULT, |s.log|, true))
    case StartSave(th) => s.WithTop(th, Write(s.Top(th).block.data, |s.log|, false))
    case BodyReturns(th) =>
      var f := s.Top(th);
      s.WithTop(th, Write(f.block.body(f.pc.loaded).value, f.pc.base, f.pc.failed))
    case BodyRaises(th) => s.WithTop(th, Leaving)
    case CreateTemp(th, ino) =>
      var pc := s.Top(th).pc;
      s.WithTop(th, Fill(pc.data, pc.base, pc.failed, ino)).(inodes := s.inodes[ino := Partial])
    case FillTemp(th) =>
      var pc := s.Top(th).pc;
      s.WithTop(th, Rename(pc.data, pc.base, pc.failed, pc.ino)).(inodes := s.inodes[pc.ino := Whole(pc.data)])
    case WriteFails(th) => s.WithTop(th, Leaving)
    case Replace(th) =>
      var f := s.Top(th);
      var c := Commit(th, |s.Stack(th)| - 1, f.block, f.pc.base, f.pc.failed, f.pc.data, f.pc.ino);
      s.WithTop(th, Leaving).(target := Some(f.pc.ino), log := s.log + [c])
    case Leave(th) =>
      var l := Released(s.Lock(th.pid));
      s.WithLock(th.pid, l).Popped(th).(osHolder := if l.depth == 0 then None else s.osHolder)
    case ReaderOpens(reader) => s.(readers := s.readers[reader := Reader(|s.log|, s.target)])
    case ReaderReads(reader) =>
      var r := s.readers[reader];
      s.(readers := s.readers - {reader}, seen := s.seen + [Sight(r.at, false, Contents(s, r.ino))])
    case ReaderFails(reader) =>
      s.(readers := s.readers - {reader}, seen := s.seen + [Sight(s.readers[reader].at, true, DEFAULT)])
    case Crash(pid) =>
      s.(locks := s.locks - {pid},
         osHolder := if s.osHolder == Some(pid) then None else s.osHolder,
         stacks := map th | th in s.stacks && th.pid != pid :: s.stacks[th])
  }

  // ---------- the invariant ----------

  predicate Acquired(f: Frame) { !f.pc.WantThreadLock? }

  /** The block holds both locks. */
  predicate Inside(f: Frame) { Acquired(f) && !f.pc.WantOsLock? }

  /** Blocks of a thread that hold the thread lock, and that hold both. */
  function AcquiredCount(st: seq<Frame>): nat {
    if st == [] then 0 else if Acquired(st[|st| - 1]) then |st| else |st| - 1
  }

  function InsideCount(st: seq<Frame>): nat {
    if st == [] then 0 else if Inside(st[|st| - 1]) then |st| else |st| - 1
  }

  /** Every block but the innermost is running its body. */
  predicate WellNested(st: seq<Frame>) {
    && (forall i :: 0 <= i < |st| - 1 ==> InBody(st[i]))
    && (st != [] ==> FrameShape(st[|st| - 1]))
  }

  predicate FrameShape(f: Frame) {
    && (f.pc.Body? ==> f.block.Update?)
    && (f.pc.Write? || f.pc.Fill? || f.pc.Rename? ==> !f.block.Hold?)
  }

  /** The thread lock of a process is owned by the one thread that has acquired it, as often as it
      has; depth counts the blocks that hold both locks. */
  ghost predicate LocksOk(s: Sys) {
    && (forall th :: WellNested(s.Stack(th)))
    && (forall th :: AcquiredCount(s.Stack(th)) > 0 ==>
          && s.Lock(th.pid).owner == Some(th.tid)
          && s.Lock(th.pid).count == AcquiredCount(s.Stack(th))
          && s.Lock(th.pid).depth == InsideCount(s.Stack(th)))
    && (forall pid: nat :: s.Lock(pid).owner == None ==> s.Lock(pid) == FREE)
    && (forall pid: nat :: s.Lock(pid).owner.Some? ==>
          AcquiredCount(s.Stack(Thread(pid, s.Lock(pid).owner.value))) > 0)
    && (forall pid: nat :: s.Lock(pid).fd <==> s.Lock(pid).depth > 0)
    && (forall pid: nat :: s.Lock(pid).depth > 0 <==> s.osHolder == Some(pid))
  }

  /** At most one thread of one process is inside the critical section. */
  lemma MutualExclusion(s: Sys, a: Thread, b: Thread)
    requires LocksOk(s)
    requires InsideCount(s.Stack(a)) > 0 && InsideCount(s.Stack(b)) > 0
    ensures a == b
  {
  }

  /** Steps that leave the locks alone and the counts of blocks as they are. */
  lemma SameLocksKept(s: Sys, t: Sys)
    requires LocksOk(s) && t.locks == s.locks && t.osHolder == s.osHolder
    requires forall th :: WellNested(t.Stack(th))
    requires forall th :: AcquiredCount(t.Stack(th)) == AcquiredCount(s.Stack(th))
                          && InsideCount(t.Stack(th)) == InsideCount(s.Stack(th))
    ensures LocksOk(t)
  {
    assert forall pid :: t.Lock(pid) == s.Lock(pid);
  }

  /** A block that moves on within the critical section. */
  lemma TopMovesInside(s: Sys, t: Sys, th: Thread, pc: Pc)
    requires LocksOk(s) && t.locks == s.locks && t.osHolder == s.osHolder
    requires s.Running(th) && t.stacks == s.WithTop(th, pc).stacks
    requires Inside(s.Top(th)) && !pc.WantThreadLock? && !pc.WantOsLock?
    requires FrameShape(s.Top(th).(pc := pc))
    ensures LocksOk(t)
  {
    var st := s.Stack(th);
    assert WellNested(st);
    assert t.Stack(th) == st[|st| - 1 := s.Top(th).(pc := pc)];
    forall other
      ensures WellNested(t.Stack(other)) && AcquiredCount(t.Stack(other)) == AcquiredCount(s.Stack(other))
              && InsideCount(t.Stack(other)) == InsideCount(s.Stack(other))
    {
      if other != th { assert t.Stack(other) == s.Stack(other) && WellNested(s.Stack(other)); }
    }
    SameLocksKept(s, t);
  }

  lemma EnterKeepsLocks(s: Sys, e: Event)
    requires LocksOk(s) && Enabled(s, e) && e.Enter?
    ensures LocksOk(Do(s, e))
  {
    var t := Do(s, e);
    forall other
      ensures WellNested(t.Stack(other)) && AcquiredCount(t.Stack(other)) == AcquiredCount(s.Stack(other))
              && InsideCount(t.Stack(other)) == InsideCount(s.Stack(other))
    {
      assert WellNested(s.Stack(other));
      if other == e.th { assert t.Stack(other) == s.Stack(other) + [Frame(e.block, WantThreadLock)]; }
    }
    SameLocksKept(s, t);
  }

  /** A step of `th` that puts the lock of its process into state `l`, where `l` fits the blocks
      of `th`, and leaves every other process and thread alone. */
  lemma OwnLockKept(s: Sys, t: Sys, th: Thread, l: LockState)
    requires LocksOk(s) && WellNested(t.Stack(th))
    requires forall other :: other != th ==> t.Stack(other) == s.Stack(other)
    requires forall p: nat :: t.Lock(p) == if p == th.pid then l else s.Lock(p)
    requires s.Lock(th.pid).owner == None || s.Lock(th.pid).owner == Some(th.tid)
    requires if AcquiredCount(t.Stack(th)) == 0 then l == FREE
             else l == LockState(Some(th.tid), AcquiredCount(t.Stack(th)), InsideCount(t.Stack(th)),
                                 InsideCount(t.Stack(th)) > 0)
    requires if l.depth > 0 then t.osHolder == Some(th.pid) && (s.osHolder == None || s.osHolder == Some(th.pid))
             else t.osHolder == (if s.Lock(th.pid).depth > 0 then None else s.osHolder)
    ensures LocksOk(t)
  {
    forall other ensures WellNested(t.Stack(other)) { if other != th { assert WellNested(s.Stack(other)); } }
    forall other | AcquiredCount(t.Stack(other)) > 0
      ensures t.Lock(other.pid).owner == Some(other.tid)
              && t.Lock(other.pid).count == AcquiredCount(t.Stack(other))
              && t.Lock(other.pid).depth == InsideCount(t.Stack(other))
    {
      if other != th { assert t.Stack(other) == s.Stack(other); }
    }
    forall p: nat | t.Lock(p).owner.Some?
      ensures AcquiredCount(t.Stack(Thread(p, t.Lock(p).owner.value))) > 0
    {
      if p != th.pid { assert t.Stack(Thread(p, t.Lock(p).owner.value)) == s.Stack(Thread(p, t.Lock(p).owner.value)); }
    }
  }

  lemma TakeThreadLockKeepsLocks(s: Sys, e: Event)
    requires LocksOk(s) && Enabled(s, e) && e.TakeThreadLock?
    ensures LocksOk(Do(s, e))
  {
    var th := e.th;
    var st, t := s.Stack(th), Do(s, e);
    assert WellNested(st);
    assert t.Stack(th) == st[|st| - 1 := Frame(st[|st| - 1].block, WantOsLock)];
    OwnLockKept(s, t, th, ThreadAcquired(s.Lock(th.pid), th.tid));
  }

  lemma TakeOsLockKeepsLocks(s: Sys, e: Event)
    requires LocksOk(s) && Enabled(s, e) && (e.TakeOsLock? || e.Reenter?)
    ensures LocksOk(Do(s, e))
  {
    var th := e.th;
    var st, t := s.Stack(th), Do(s, e);
    assert WellNested(st);
    assert t.Stack(th) == st[|st| - 1 := Frame(st[|st| - 1].block, Held)];
    var l := s.Lock(th.pid);
    OwnLockKept(s, t, th, if e.TakeOsLock? then OsAcquired(l) else Deeper(l));
  }

  lemma PopKeepsLocks(s: Sys, e: Event)
    requires LocksOk(s) && Enabled(s, e) && (e.OsLockFails? || e.Leave?)
    ensures LocksOk(Do(s, e))
  {
    var th := e.th;
    var st, t := s.Stack(th), Do(s, e);
    assert WellNested(st);
    assert t.Stack(th) == st[..|st| - 1];
    var l := s.Lock(th.pid);
    OwnLockKept(s, t, th, if e.OsLockFails? then ThreadReleased(l) else Released(l));
  }

  lemma CrashKeepsLocks(s: Sys, e: Event)
    requires LocksOk(s) && e.Crash?
    ensures LocksOk(Do(s, e))
  {
    var t := Do(s, e);
    forall th ensures WellNested(t.Stack(th)) { assert WellNested(s.Stack(th)); }
    assert forall p: nat :: t.Lock(p) == if p == e.pid then FREE else s.Lock(p);
    forall p: nat | t.Lock(p).owner.Some?
      ensures AcquiredCount(t.Stack(Thread(p, t.Lock(p).owner.value))) > 0
    {
      var owner := Thread(p, t.Lock(p).owner.value);
      assert t.Stack(owner) == s.Stack(owner);
    }
  }

  // ---------- files, commits and readers ----------

  /** Each commit's data is what its block makes of what it loaded. */
  predicate Faithful(log: seq<Commit>, i: nat)
    requires i < |log|
  {
    var c := log[i];
    && c.base <= i && !c.block.Hold?
    && (c.block.Save? ==> c.doc == c.block.data)
    && (c.block.Update? ==> c.block.body(Loaded(log, c.base, c.failed)) == Some(c.doc))
  }

  /** The commits from `from` to `upto` were all made by blocks nested inside the one at `level`. */
  predicate OnlyNested(log: seq<Commit>, from: nat, upto: nat, th: Thread, level: nat) {
    forall j :: from <= j < upto && j < |log| ==> log[j].thread == th && log[j].level > level
  }

  /** Commits that slipped between the load and the commit of an update were made by the same
      thread inside that update's body. */
  predicate LogOk(log: seq<Commit>) {
    forall i :: 0 <= i < |log| ==>
      Faithful(log, i) && OnlyNested(log, log[i].base, i, log[i].thread, log[i].level)
  }

  /** Files that were ever the target are whole and keep the document they were committed with. */
  predicate Published(s: Sys, k: nat)
    requires k < |s.log|
  {
    s.log[k].ino in s.inodes && s.inodes[s.log[k].ino] == Whole(s.log[k].doc)
  }

  predicate FilesOk(s: Sys) {
    && (forall k :: 0 <= k < |s.log| ==> Published(s, k))
    && s.target == (if s.log == [] then None else Some(s.log[|s.log| - 1].ino))
  }

  predicate Unpublished(s: Sys, ino: nat) { forall k :: 0 <= k < |s.log| ==> s.log[k].ino != ino }

  /** A block's data is what its block makes of the version it was based on, nothing but blocks
      nested in it has committed since, and its temporary file has never been the target. */
  predicate FrameOk(s: Sys, th: Thread, level: nat, f: Frame) {
    && (f.pc.Body? ==>
          f.pc.base <= |s.log| && f.pc.loaded == Loaded(s.log, f.pc.base, f.pc.failed)
          && OnlyNested(s.log, f.pc.base, |s.log|, th, level))
    && (f.pc.Write? || f.pc.Fill? || f.pc.Rename? ==>
          && f.pc.base <= |s.log|
          && (f.block.Save? ==> f.pc.data == f.block.data)
          && (f.block.Update? ==> f.block.body(Loaded(s.log, f.pc.base, f.pc.failed)) == Some(f.pc.data))
          && OnlyNested(s.log, f.pc.base, |s.log|, th, level))
    && (f.pc.Fill? || f.pc.Rename? ==> f.pc.ino in s.inodes && Unpublished(s, f.pc.ino))
    && (f.pc.Rename? ==> s.inodes[f.pc.ino] == Whole(f.pc.data))
  }

  ghost predicate FramesOk(s: Sys) {
    forall th, i :: 0 <= i < |s.Stack(th)| ==> FrameOk(s, th, i, s.Stack(th)[i])
  }

  predicate ReaderOk(s: Sys, r: Reader) {
    r.at <= |s.log| && r.ino == if r.at == 0 then None else Some(s.log[r.at - 1].ino)
  }

  predicate SightOk(log: seq<Commit>, sight: Sight) {
    sight.at <= |log| && sight.doc == Loaded(log, sight.at, sight.failed)
  }

  /** Every value a reader returned is the version that was current when it opened the file, or the
      default when it could not read it. */
  predicate ReadersOk(s: Sys) {
    && (forall r :: r in s.readers ==> ReaderOk(s, s.readers[r]))
    && (forall i :: 0 <= i < |s.seen| ==> SightOk(s.log, s.seen[i]))
  }

  ghost predicate Inv(s: Sys) {
    LocksOk(s) && LogOk(s.log) && FilesOk(s) && FramesOk(s) && ReadersOk(s)
  }

  lemma FrameAt(s: Sys, th: Thread)
    requires FramesOk(s) && s.Running(th)
    ensures FrameOk(s, th, |s.Stack(th)| - 1, s.Top(th))
  {
  }

  /** A step that changes neither log nor files, and gives the top block a good position. */
  lemma StackStepKeepsFrames(s: Sys, t: Sys, th: Thread)
    requires FramesOk(s) && t.log == s.log && t.inodes == s.inodes
    requires forall other :: other != th ==> t.Stack(other) == s.Stack(other)
    requires forall i :: 0 <= i < |t.Stack(th)| ==>
               (i < |s.Stack(th)| && t.Stack(th)[i] == s.Stack(th)[i]) || FrameOk(t, th, i, t.Stack(th)[i])
    ensures FramesOk(t)
  {
    forall other, i | 0 <= i < |t.Stack(other)|
      ensures FrameOk(t, other, i, t.Stack(other)[i])
    {
      if other != th || (i < |s.Stack(th)| && t.Stack(th)[i] == s.Stack(th)[i]) {
        assert FrameOk(s, other, i, s.Stack(other)[i]);
      }
    }
  }

  /** Steps that leave log, target and published files alone keep files and readers good. */
  lemma SameFilesKept(s: Sys, t: Sys)
    requires FilesOk(s) && ReadersOk(s)
    requires t.log == s.log && t.target == s.target && t.readers == s.readers && t.seen == s.seen
    requires forall k :: 0 <= k < |s.log| ==> s.log[k].ino in s.inodes ==>
               s.log[k].ino in t.inodes && t.inodes[s.log[k].ino] == s.inodes[s.log[k].ino]
    ensures FilesOk(t) && ReadersOk(t)
  {
    forall k | 0 <= k < |t.log| ensures Published(t, k) { assert Published(s, k); }
    forall r | r in t.readers ensures ReaderOk(t, t.readers[r]) { assert ReaderOk(s, s.readers[r]); }
  }

  /** Any step of a block that touches no file. */
  lemma StackStepKept(s: Sys, t: Sys, th: Thread)
    requires Inv(s) && LocksOk(t)
    requires t.log == s.log && t.inodes == s.inodes && t.target == s.target
    requires t.readers == s.readers && t.seen == s.seen
    requires forall other :: other != th ==> t.Stack(other) == s.Stack(other)
    requires forall i :: 0 <= i < |t.Stack(th)| ==>
               (i < |s.Stack(th)| && t.Stack(th)[i] == s.Stack(th)[i]) || FrameOk(t, th, i, t.Stack(th)[i])
    ensures Inv(t)
  {
    SameFilesKept(s, t);
    StackStepKeepsFrames(s, t, th);
  }

  /** Steps that only move a thread in or out of the locks. */
  lemma LockStepKept(s: Sys, e: Event)
    requires Inv(s) && Enabled(s, e)
    requires e.Enter? || e.TakeThreadLock? || e.TakeOsLock? || e.OsLockFails? || e.Reenter? || e.Leave?
    ensures Inv(Do(s, e))
  {
    LockStepKeepsLocks(s, e);
    LockStepStacks(s, e);
    StackStepKept(s, Do(s, e), e.th);
  }

  lemma LockStepStacks(s: Sys, e: Event)
    requires Enabled(s, e)
    requires e.Enter? || e.TakeThreadLock? || e.TakeOsLock? || e.OsLockFails? || e.Reenter? || e.Leave?
    ensures var t, th := Do(s, e), e.th;
            && t.log == s.log && t.inodes == s.inodes && t.target == s.target
            && t.readers == s.readers && t.seen == s.seen
            && (forall other :: other != th ==> t.Stack(other) == s.Stack(other))
            && forall i :: 0 <= i < |t.Stack(th)| ==>
                 (i < |s.Stack(th)| && t.Stack(th)[i] == s.Stack(th)[i]) || FrameOk(t, th, i, t.Stack(th)[i])
  {
    var t, st := Do(s, e), s.Stack(e.th);
    if e.Enter? { assert t.Stack(e.th) == st + [Frame(e.block, WantThreadLock)]; }
    else if e.OsLockFails? || e.Leave? { assert t.Stack(e.th) == st[..|st| - 1]; }
    else {
      var pc := if e.TakeThreadLock? then WantOsLock else Held;
      assert t.Stack(e.th) == st[|st| - 1 := Frame(st[|st| - 1].block, pc)];
    }
  }

  lemma LockStepKeepsLocks(s: Sys, e: Event)
    requires LocksOk(s) && Enabled(s, e)
    requires e.Enter? || e.TakeThreadLock? || e.TakeOsLock? || e.OsLockFails? || e.Reenter? || e.Leave?
    ensures LocksOk(Do(s, e))
  {
    if e.Enter? { EnterKeepsLocks(s, e); }
    else if e.TakeThreadLock? { TakeThreadLockKeepsLocks(s, e); }
    else if e.TakeOsLock? || e.Reenter? { TakeOsLockKeepsLocks(s, e); }
    else { PopKeepsLocks(s, e); }
  }

  /** What a step inside the critical section makes of the position of its block. */
  function NextPc(s: Sys, e: Event): Pc
    requires Enabled(s, e)
    requires e.Load? || e.LoadFails? || e.StartSave? || e.BodyReturns? || e.BodyRaises? || e.WriteFails?
  {
    match e
    case Load(th) => Body(Contents(s, s.target), |s.log|, false)
    case LoadFails(th) => Body(DEFAULT, |s.log|, true)
    case StartSave(th) => Write(s.Top(th).block.data, |s.log|, false)
    case BodyReturns(th) =>
      Write(s.Top(th).block.body(s.Top(th).pc.loaded).value, s.Top(th).pc.base, s.Top(th).pc.failed)
    case _ => Leaving
  }

  lemma NextPcIsGood(s: Sys, e: Event)
    requires FilesOk(s) && FramesOk(s) && Enabled(s, e)
    requires e.Load? || e.LoadFails? || e.StartSave? || e.BodyReturns? || e.BodyRaises? || e.WriteFails?
    ensures FrameOk(s, e.th, |s.Stack(e.th)| - 1, s.Top(e.th).(pc := NextPc(s, e)))
  {
    FrameAt(s, e.th);
    if e.Load? && s.log != [] { assert Published(s, |s.log| - 1); }
  }

  /** Steps of a block inside the critical section that touch no file but to read the target. */
  lemma BodyStepKept(s: Sys, e: Event)
    requires Inv(s) && Enabled(s, e)
    requires e.Load? || e.LoadFails? || e.StartSave? || e.BodyReturns? || e.BodyRaises? || e.WriteFails?
    ensures Inv(Do(s, e))
  {
    var th, pc := e.th, NextPc(s, e);
    var t := s.WithTop(th, pc);
    assert WellNested(s.Stack(th));
    TopMovesInside(s, t, th, pc);
    NextPcIsGood(s, e);
    MovedTopKept(s, t, th, pc);
    assert t == Do(s, e);
  }

  lemma MovedTopKept(s: Sys, t: Sys, th: Thread, pc: Pc)
    requires Inv(s) && s.Running(th) && t == s.WithTop(th, pc) && LocksOk(t)
    requires FrameOk(s, th, |s.Stack(th)| - 1, s.Top(th).(pc := pc))
    ensures Inv(t)
  {
    StackStepKept(s, t, th);
  }

  /** Only one block at a time has a temporary file or is about to have one. */
  lemma OneWriter(s: Sys, a: Thread, i: nat, b: Thread, j: nat)
    requires LocksOk(s) && i < |s.Stack(a)| && j < |s.Stack(b)|
    requires var p, q := s.Stack(a)[i].pc, s.Stack(b)[j].pc;
             && (p.Write? || p.Fill? || p.Rename?) && (q.Write? || q.Fill? || q.Rename?)
    ensures a == b && i == j
  {
    assert WellNested(s.Stack(a)) && WellNested(s.Stack(b));
  }

  lemma CreateTempKeepsLocks(s: Sys, e: Event)
    requires LocksOk(s) && FramesOk(s) && Enabled(s, e) && e.CreateTemp?
    ensures LocksOk(Do(s, e))
  {
    var t, th := Do(s, e), e.th;
    FrameAt(s, th);
    assert WellNested(s.Stack(th));
    TopMovesInside(s, t, th, t.Top(th).pc);
  }

  lemma CreateTempKeepsFrames(s: Sys, e: Event)
    requires FramesOk(s) && FilesOk(s) && Enabled(s, e) && e.CreateTemp?
    ensures FramesOk(Do(s, e))
  {
    var t, th := Do(s, e), e.th;
    var top := |s.Stack(th)| - 1;
    forall k | 0 <= k < |s.log| ensures s.log[k].ino != e.ino { assert Published(s, k); }
    forall other, i | 0 <= i < |t.Stack(other)|
      ensures FrameOk(t, other, i, t.Stack(other)[i])
    {
      if other != th || i != top { assert FrameOk(s, other, i, s.Stack(other)[i]); }
    }
  }

  lemma CreateTempKept(s: Sys, e: Event)
    requires Inv(s) && Enabled(s, e) && e.CreateTemp?
    ensures Inv(Do(s, e))
  {
    CreateTempKeepsLocks(s, e);
    CreateTempKeepsFrames(s, e);
    SameFilesKept(s, Do(s, e));
  }

  lemma FillTempKeepsLocks(s: Sys, e: Event)
    requires LocksOk(s) && FramesOk(s) && Enabled(s, e) && e.FillTemp?
    ensures LocksOk(Do(s, e))
  {
    var t, th := Do(s, e), e.th;
    FrameAt(s, th);
    assert WellNested(s.Stack(th));
    TopMovesInside(s, t, th, t.Top(th).pc);
  }

  lemma FillTempKeepsFrames(s: Sys, e: Event)
    requires LocksOk(s) && FramesOk(s) && Enabled(s, e) && e.FillTemp?
    ensures FramesOk(Do(s, e))
  {
    var t, th := Do(s, e), e.th;
    var top := |s.Stack(th)| - 1;
    FrameAt(s, th);
    forall other, i | 0 <= i < |t.Stack(other)|
      ensures FrameOk(t, other, i, t.Stack(other)[i])
    {
      if other != th || i != top {
        assert FrameOk(s, other, i, s.Stack(other)[i]);
        var pc := s.Stack(other)[i].pc;
        if pc.Fill? || pc.Rename? { OneWriter(s, other, i, th, top); }
      }
    }
  }

  lemma FillTempKept(s: Sys, e: Event)
    requires Inv(s) && Enabled(s, e) && e.FillTemp?
    ensures Inv(Do(s, e))
  {
    hide LocksOk, LogOk;
    FillTempKeepsLocks(s, e);
    FillTempKeepsFrames(s, e);
    FrameAt(s, e.th);
    SameFilesKept(s, Do(s, e));
  }

  lemma VersionsStay(log: seq<Commit>, c: Commit, k: nat)
    requires k <= |log|
    ensures Version(log + [c], k) == Version(log, k)
  {
  }

  lemma LogGrows(log: seq<Commit>, c: Commit)
    requires LogOk(log)
    requires c.base <= |log| && OnlyNested(log, c.base, |log|, c.thread, c.level) && !c.block.Hold?
    requires c.block.Save? ==> c.doc == c.block.data
    requires c.block.Update? ==> c.block.body(Loaded(log, c.base, c.failed)) == Some(c.doc)
    ensures LogOk(log + [c])
  {
    var all := log + [c];
    forall i | 0 <= i < |all|
      ensures Faithful(all, i) && OnlyNested(all, all[i].base, i, all[i].thread, all[i].level)
    {
      if i < |log| { assert Faithful(log, i) && OnlyNested(log, log[i].base, i, log[i].thread, log[i].level); }
      VersionsStay(log, c, all[i].base);
    }
  }

  lemma CommitKeepsReaders(s: Sys, t: Sys, c: Commit)
    requires ReadersOk(s) && t.log == s.log + [c] && t.readers == s.readers && t.seen == s.seen
    ensures ReadersOk(t)
  {
    forall r | r in t.readers ensures ReaderOk(t, t.readers[r]) { assert ReaderOk(s, s.readers[r]); }
    forall i | 0 <= i < |t.seen|
      ensures SightOk(t.log, t.seen[i])
    {
      assert SightOk(s.log, s.seen[i]);
      VersionsStay(s.log, c, s.seen[i].at);
    }
  }

  lemma ReplaceKept(s: Sys, e: Event)
    requires Inv(s) && Enabled(s, e) && e.Replace?
    ensures Inv(Do(s, e))
  {
    var t, th := Do(s, e), e.th;
    var top, f := |s.Stack(th)| - 1, s.Top(th);
    FrameAt(s, th);
    TopMovesInside(s, t, th, Leaving);
    var c := Commit(th, top, f.block, f.pc.base, f.pc.failed, f.pc.data, f.pc.ino);
    assert t.log == s.log + [c];
    assert WellNested(s.Stack(th));
    LogGrows(s.log, c);
    forall k | 0 <= k < |t.log| ensures Published(t, k) { if k < |s.log| { assert Published(s, k); } }
    CommitKeepsReaders(s, t, c);
    forall other, i | 0 <= i < |t.Stack(other)|
      ensures FrameOk(t, other, i, t.Stack(other)[i])
    {
      if other == th && i == top {
      } else {
        OtherFrameSurvives(s, t, c, th, top, other, i);
      }
    }
  }

  /** A commit by the innermost block of a thread leaves every other block's data good: blocks
      that hold data are below it on the same stack. */
  lemma OtherFrameSurvives(s: Sys, t: Sys, c: Commit, th: Thread, top: nat, other: Thread, i: nat)
    requires LocksOk(s) && FramesOk(s) && |s.Stack(th)| == top + 1 && s.Stack(th)[top].pc.Rename?
    requires i < |s.Stack(other)| && (other != th || i != top)
    requires t.log == s.log + [c] && c.thread == th && c.level == top && t.inodes == s.inodes
    ensures FrameOk(t, other, i, s.Stack(other)[i])
  {
    var f := s.Stack(other)[i];
    assert FrameOk(s, other, i, f);
    assert WellNested(s.Stack(th)) && WellNested(s.Stack(other));
    if f.pc.Write? || f.pc.Fill? || f.pc.Rename? {
      OneWriter(s, other, i, th, top);
    } else if f.pc.Body? {
      VersionsStay(s.log, c, f.pc.base);
      MutualExclusion(s, other, th);
    }
  }

  lemma CrashKept(s: Sys, e: Event)
    requires Inv(s) && Enabled(s, e) && e.Crash?
    ensures Inv(Do(s, e))
  {
    CrashKeepsLocks(s, e);
    var t := Do(s, e);
    SameFilesKept(s, t);
    forall th, i | 0 <= i < |t.Stack(th)|
      ensures FrameOk(t, th, i, t.Stack(th)[i])
    {
      assert FrameOk(s, th, i, s.Stack(th)[i]);
    }
  }

  lemma SameStacksKept(s: Sys, t: Sys)
    requires LocksOk(s) && FilesOk(s) && FramesOk(s)
    requires t.stacks == s.stacks && t.locks == s.locks && t.osHolder == s.osHolder
    requires t.log == s.log && t.inodes == s.inodes && t.target == s.target
    ensures LocksOk(t) && FilesOk(t) && FramesOk(t)
  {
    forall th ensures t.Stack(th) == s.Stack(th) && WellNested(t.Stack(th)) { assert WellNested(s.Stack(th)); }
    SameLocksKept(s, t);
    forall k | 0 <= k < |s.log| ensures Published(t, k) { assert Published(s, k); }
    forall th, i | 0 <= i < |t.Stack(th)|
      ensures FrameOk(t, th, i, t.Stack(th)[i])
    {
      assert FrameOk(s, th, i, s.Stack(th)[i]);
    }
  }

  lemma ReaderStepKept(s: Sys, e: Event)
    requires Inv(s) && Enabled(s, e) && (e.ReaderOpens? || e.ReaderReads? || e.ReaderFails?)
    ensures Inv(Do(s, e))
  {
    hide LocksOk, FilesOk, FramesOk, ReadersOk;
    SameStacksKept(s, Do(s, e));
    ReaderStepReaders(s, e);
  }

  lemma ReaderStepReaders(s: Sys, e: Event)
    requires FilesOk(s) && ReadersOk(s) && Enabled(s, e) && (e.ReaderOpens? || e.ReaderReads? || e.ReaderFails?)
    ensures ReadersOk(Do(s, e))
  {
    var t := Do(s, e);
    forall r | r in t.readers ensures ReaderOk(t, t.readers[r]) {
      if r in s.readers { assert ReaderOk(s, s.readers[r]); }
    }
    forall i | 0 <= i < |s.seen| ensures SightOk(t.log, t.seen[i]) { assert SightOk(s.log, s.seen[i]); }
    if !e.ReaderOpens? {
      var r := s.readers[e.reader];
      assert ReaderOk(s, r);
      if r.at > 0 { assert Published(s, r.at - 1); }
    }
  }

  lemma StepKept(s: Sys, e: Event)
    requires Inv(s) && Enabled(s, e)
    ensures Inv(Do(s, e))
  {
    if e.CreateTemp? { CreateTempKept(s, e); }
    else if e.FillTemp? { FillTempKept(s, e); }
    else if e.Replace? { ReplaceKept(s, e); }
    else if e.Crash? { CrashKept(s, e); }
    else if e.ReaderOpens? || e.ReaderReads? || e.ReaderFails? { ReaderStepKept(s, e); }
    else if e.Enter? || e.TakeThreadLock? || e.TakeOsLock? || e.OsLockFails? || e.Reenter? || e.Leave? {
      LockStepKept(s, e);
    }
    else { BodyStepKept(s, e); }
  }
}
