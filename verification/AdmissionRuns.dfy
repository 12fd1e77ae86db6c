/** What holds over every history of registrations and transitions. */
module AdmissionRuns {
  import opened Wrappers
  import opened Redaction
  import opened Text
  import opened Admission
  import opened Listing
  import opened Identities

  datatype Op =
    | Add(q: Request, now: real, read: bool)
    | Update(q: Request, newest: Option<string>, now: real, read: bool, again: bool)
    | Move(id: string, status: string, reviewer: string, reason: string, now: real, read: bool)

  ghost predicate Enabled(rs: Records, op: Op) { op.Update? ==> IsNewest(Loaded(rs, op.read), op.q, op.newest) }

  function Next(env: Env, rs: Records, op: Op): Records
    requires op.Update? && op.newest.Some? ==> op.newest.value in Loaded(rs, op.read)
  {
    match op
    case Add(q, now, read) => Create(env, rs, q, now, read).records
    case Update(q, newest, now, read, again) => Register(env, rs, q, newest, now, read, again).records
    case Move(id, status, reviewer, reason, now, read) =>
      Transition(env, rs, id, status, reviewer, reason, now, read).records
  }

  predicate Files(q: Request) { Norm(q.kind) != "" && Strip(q.name) != "" }

  /** The operation files a new record without having been able to read those on file, by the load
      that `create_record` makes. */
  predicate Forgets(env: Env, rs: Records, op: Op) {
    rs != map[]
    && match op
       case Add(q, _, read) => !read && Files(q)
       case Update(q, newest, _, read, again) =>
         var seen := Loaded(rs, read);
         && !again && Files(q) && (newest.Some? ==> newest.value in seen)
         && IdOf(env, RegisterIdentity(Resolved(env, seen, q, newest))) !in seen
       case Move(_, _, _, _, _, _) => false
  }

  /** The record maps of one history, from the empty one on. */
  ghost predicate History(env: Env, path: seq<Records>, ops: seq<Op>) {
    && |path| == |ops| + 1 && path[0] == map[]
    && forall k :: 0 <= k < |ops| ==> Enabled(path[k], ops[k]) && path[k + 1] == Next(env, path[k], ops[k])
  }

  // ---------- one step ----------

  /** The part of a record that a review decides. */
  predicate SameReview(a: Record, b: Record) { a.status == b.status && a.trust == b.trust }

  predicate Fresh(r: Record) { r.status.Discovered? && r.trust.Unreviewed? && r.approved == {} }

  /** What a step may do to a record: nothing to its review, or an allowed transition; and a new
      record is fresh. */
  predicate Moves(rs: Records, rs': Records, id: string) {
    && (id in rs ==>
          id in rs'
          && (SameReview(rs[id], rs'[id])
              || (rs'[id].status in Allowed(rs[id].status)
                  && rs'[id].trust == if Rank(rs'[id].status) < 3 then rs[id].trust else ClassOf(rs'[id].status))))
    && (id in rs' && id !in rs ==> Fresh(rs'[id]))
  }

  function Rank(s: Status): nat {
    match s
    case Discovered => 0
    case Inspected => 1
    case ReviewRequired => 2
    case Approved => 3
    case Active => 4
    case Quarantined => 5
    case Revoked => 6
  }

  function ClassOf(s: Status): TrustClass {
    match s
    case Approved => Reviewed
    case Active => Reviewed
    case Quarantined => OnHold
    case Revoked => Withdrawn
    case _ => Unreviewed
  }

  lemma SaveKeepsReviews(env: Env, rs: Records, id: string)
    ensures id in Save(env, rs) <==> id in rs
    ensures id in rs ==> SameReview(Save(env, rs)[id], rs[id])
                         && (rs[id].approved == {} ==> Save(env, rs)[id].approved == {})
  {
    hide Redact;
  }

  lemma CreateMoves(env: Env, rs: Records, q: Request, now: real, read: bool, id: string)
    ensures rs == map[] || read || !Files(q) ==>
              && Moves(rs, Create(env, rs, q, now, read).records, id)
              && (id in rs ==> id in Create(env, rs, q, now, read).records
                               && SameReview(rs[id], Create(env, rs, q, now, read).records[id]))
  {
    hide Norm, Strip, IdOf, CreateIdentity, Save;
    var key := IdOf(env, CreateIdentity(env, q));
    SaveKeepsReviews(env, rs[key := NewRecord(env, q, now)], id);
  }

  /** Filing without reading: the new record is the only one. */
  lemma CreateForgets(env: Env, rs: Records, q: Request, now: real)
    requires Files(q)
    ensures var t := Create(env, rs, q, now, false);
            && t.reply.Done? && t.records.Keys == {t.reply.id} && Fresh(t.records[t.reply.id])
  {
    hide Norm, Strip, IdOf, CreateIdentity, Redact;
  }

  /** Registering changes no review and adds only fresh records, unless it forgets those on file. */
  lemma RegisterMoves(env: Env, rs: Records, q: Request, newest: Option<string>, now: real, read: bool, again: bool,
                      id: string)
    requires newest.Some? ==> newest.value in Loaded(rs, read)
    requires !Forgets(env, rs, Update(q, newest, now, read, again))
    ensures Moves(rs, Register(env, rs, q, newest, now, read, again).records, id)
    ensures id in rs ==> id in Register(env, rs, q, newest, now, read, again).records
                         && SameReview(rs[id], Register(env, rs, q, newest, now, read, again).records[id])
  {
    hide Norm, Strip, IdOf, Resolved, RegisterIdentity, Create, Save, Files;
    var full := Resolved(env, Loaded(rs, read), q, newest);
    var key := IdOf(env, RegisterIdentity(full));
    ResolvedFiles(env, Loaded(rs, read), q, newest);
    if key in Loaded(rs, read) {
      SaveKeepsReviews(env, rs[key := Refreshed(env, rs[key], full, now)], id);
    } else {
      CreateMoves(env, rs, full, now, again, id);
    }
  }

  lemma ResolvedFiles(env: Env, rs: Records, q: Request, newest: Option<string>)
    requires newest.Some? ==> newest.value in rs
    ensures Files(Resolved(env, rs, q, newest)) <==> Files(q)
  {
  }

  lemma TransitionMoves(env: Env, rs: Records, id: string, status: string, reviewer: string, reason: string, now: real,
                        read: bool, other: string)
    ensures Moves(rs, Transition(env, rs, id, status, reviewer, reason, now, read).records, other)
  {
    hide ParseStatus, Strip, Save;
    var s, key := ParseStatus(status), Strip(id);
    if s.Some? && key in rs && s.value in Allowed(rs[key].status) {
      SaveKeepsReviews(env, rs[key := Moved(rs[key], s.value, reviewer, reason, now)], other);
    }
  }

  lemma StepMoves(env: Env, rs: Records, op: Op, id: string)
    requires Enabled(rs, op) && !Forgets(env, rs, op)
    ensures Moves(rs, Next(env, rs, op), id)
  {
    hide Moves, Create, Register, Transition;
    match op
    case Add(q, now, read) => CreateMoves(env, rs, q, now, read, id);
    case Update(q, newest, now, read, again) => RegisterMoves(env, rs, q, newest, now, read, again, id);
    case Move(key, status, reviewer, reason, now, read) =>
      TransitionMoves(env, rs, key, status, reviewer, reason, now, read, id);
  }

  /** An operation that forgets leaves one record, and a fresh one. */
  lemma ForgettingStartsAfresh(env: Env, rs: Records, op: Op)
    requires Enabled(rs, op) && Forgets(env, rs, op)
    ensures |Next(env, rs, op).Keys| == 1 && forall id :: id in Next(env, rs, op) ==> Fresh(Next(env, rs, op)[id])
  {
    hide Files, Create, Resolved, RegisterIdentity, IdOf;
    match op
    case Add(q, now, _) => CreateForgets(env, rs, q, now);
    case Update(q, newest, now, read, _) =>
      ResolvedFiles(env, Loaded(rs, read), q, newest);
      CreateForgets(env, rs, Resolved(env, Loaded(rs, read), q, newest), now);
    case Move(_, _, _, _, _, _) =>
  }

  lemma StepAt(env: Env, path: seq<Records>, ops: seq<Op>, n: nat)
    requires History(env, path, ops) && n + 1 < |path|
    ensures n < |ops| && Enabled(path[n], ops[n]) && path[n + 1] == Next(env, path[n], ops[n])
  {
  }

  /** What every step leaves: an allowed move of a record that was there, or a fresh record. */
  lemma MovesAt(env: Env, path: seq<Records>, ops: seq<Op>, n: nat, id: string)
    requires History(env, path, ops) && n + 1 < |path|
    ensures Moves(path[n], path[n + 1], id) || (id in path[n + 1] ==> Fresh(path[n + 1][id]))
  {
    hide History, Moves, Next, Forgets;
    StepAt(env, path, ops, n);
    if Forgets(env, path[n], ops[n]) {
      ForgettingStartsAfresh(env, path[n], ops[n]);
    } else {
      StepMoves(env, path[n], ops[n], id);
    }
  }

  lemma StartsEmpty(env: Env, path: seq<Records>, ops: seq<Op>)
    requires History(env, path, ops)
    ensures path != [] && path[0] == map[]
  {
  }

  // ---------- lifecycle ----------

  lemma AllowedRises(s: Status, t: Status)
    requires t in Allowed(s)
    ensures Rank(s) < Rank(t) && (t.Active? ==> s.Approved?)
  {
  }

  predicate HasStatus(rs: Records, id: string, s: Status) { id in rs && rs[id].status == s }

  /** An active record was approved earlier, under the same id. */
  lemma {:induction false} ActiveWasApproved(env: Env, path: seq<Records>, ops: seq<Op>, n: nat, id: string)
      returns (k: nat)
    requires History(env, path, ops) && n < |path| && HasStatus(path[n], id, Active)
    ensures k < n && HasStatus(path[k], id, Approved)
  {
    hide History;
    StartsEmpty(env, path, ops);
    MovesAt(env, path, ops, n - 1, id);
    if path[n - 1][id].status.Active? {
      k := ActiveWasApproved(env, path, ops, n - 1, id);
    } else {
      AllowedRises(path[n - 1][id].status, Active);
      k := n - 1;
    }
  }

  /** No step from `k` to `n` forgets the records on file. */
  ghost predicate Remembers(env: Env, path: seq<Records>, ops: seq<Op>, k: nat, n: nat)
    requires History(env, path, ops) && n < |path|
  {
    forall j :: k <= j < n ==> Enabled(path[j], ops[j]) && !Forgets(env, path[j], ops[j])
  }

  lemma RememberedMoves(env: Env, path: seq<Records>, ops: seq<Op>, k: nat, n: nat, id: string)
    requires History(env, path, ops) && k < n < |path| && Remembers(env, path, ops, k, n)
    ensures Moves(path[n - 1], path[n], id) && Remembers(env, path, ops, k, n - 1)
  {
    hide Moves, Next, Forgets;
    StepAt(env, path, ops, n - 1);
    StepMoves(env, path[n - 1], ops[n - 1], id);
  }

  /** Along a history that forgets nothing the rank of a record never falls. */
  lemma {:induction false} RankNeverFalls(env: Env, path: seq<Records>, ops: seq<Op>, k: nat, n: nat, id: string)
    requires History(env, path, ops) && k <= n < |path| && id in path[k] && Remembers(env, path, ops, k, n)
    ensures id in path[n] && Rank(path[k][id].status) <= Rank(path[n][id].status)
    decreases n
  {
    hide History, Remembers;
    if k < n {
      RememberedMoves(env, path, ops, k, n, id);
      RankNeverFalls(env, path, ops, k, n - 1, id);
      if path[n][id].status != path[n - 1][id].status { AllowedRises(path[n - 1][id].status, path[n][id].status); }
    }
  }

  predicate Barred(rs: Records, id: string) { HasStatus(rs, id, Quarantined) || HasStatus(rs, id, Revoked) }

  /** As long as no step forgets the records on file, a quarantined or revoked record never becomes
      approved or active again, and a revoked one stays revoked. */
  lemma BarredForever(env: Env, path: seq<Records>, ops: seq<Op>, k: nat, n: nat, id: string)
    requires History(env, path, ops) && k <= n < |path| && Barred(path[k], id) && Remembers(env, path, ops, k, n)
    ensures Barred(path[n], id)
    ensures HasStatus(path[k], id, Revoked) ==> HasStatus(path[n], id, Revoked)
  {
    hide History;
    RankNeverFalls(env, path, ops, k, n, id);
  }

  /** A barred record is still barred after a step exactly unless the step forgets it. */
  lemma BarredIff(env: Env, rs: Records, op: Op, id: string)
    requires Enabled(rs, op) && Barred(rs, id)
    ensures Barred(Next(env, rs, op), id) <==> !Forgets(env, rs, op)
  {
    hide Next, Forgets;
    if Forgets(env, rs, op) {
      ForgettingStartsAfresh(env, rs, op);
    } else {
      StepMoves(env, rs, op, id);
      if Next(env, rs, op)[id].status != rs[id].status { AllowedRises(rs[id].status, Next(env, rs, op)[id].status); }
    }
  }

  lemma MovedStatus(env: Env, rs: Records, id: string, status: string, to: Status, now: real)
    requires Strip(id) == id && ParseStatus(status) == Some(to) && id in rs && to in Allowed(rs[id].status)
    ensures HasStatus(Next(env, rs, Move(id, status, "", "", now, true)), id, to)
  {
    hide ParseStatus, Strip;
    AllowedRises(rs[id].status, to);
    SaveKeepsReviews(env, rs[id := Moved(rs[id], to, "", "", now)], id);
  }

  lemma StatusWords()
    ensures ParseStatus("inspected") == Some(Inspected) && ParseStatus("approved") == Some(Approved)
  {
    hide Norm;
    NormalIsFixed("inspected");
    NormalIsFixed("approved");
  }

  /** From any records: a barred capability that is registered once more while the file cannot be read
      starts again as discovered, and two transitions later it is approved. */
  lemma BarredIsApprovedAgain(env: Env, rs: Records, q: Request, now: real)
    requires Files(q) && Barred(rs, IdOf(env, CreateIdentity(env, q)))
    requires Strip(IdOf(env, CreateIdentity(env, q))) == IdOf(env, CreateIdentity(env, q))
    ensures var id := IdOf(env, CreateIdentity(env, q));
            var again := Next(env, rs, Add(q, now, false));
            var inspected := Next(env, again, Move(id, "inspected", "", "", now, true));
            HasStatus(Next(env, inspected, Move(id, "approved", "", "", now, true)), id, Approved)
  {
    hide Files, Create, Next, CreateIdentity, ParseStatus, Strip, IdOf;
    var id := IdOf(env, CreateIdentity(env, q));
    var again := Next(env, rs, Add(q, now, false));
    RefiledAfresh(env, rs, q, now);
    StatusWords();
    MovedStatus(env, again, id, "inspected", Inspected, now);
    MovedStatus(env, Next(env, again, Move(id, "inspected", "", "", now, true)), id, "approved", Approved, now);
  }

  lemma RefiledAfresh(env: Env, rs: Records, q: Request, now: real)
    requires Files(q)
    ensures HasStatus(Next(env, rs, Add(q, now, false)), IdOf(env, CreateIdentity(env, q)), Discovered)
  {
    hide Norm, Strip, IdOf, CreateIdentity, Redact;
    CreateForgets(env, rs, q, now);
  }

  /** How often the status of a record has changed in the first `n` steps. */
  function Changes(path: seq<Records>, n: nat, id: string): nat
    requires n < |path|
  {
    if n == 0 then 0
    else
      Changes(path, n - 1, id)
      + (if id in path[n - 1] && id in path[n] && path[n - 1][id].status != path[n][id].status then 1 else 0)
  }

  /** As long as no step forgets the records on file, each changes status at most six times. */
  lemma {:induction false} AtMostSixChanges(env: Env, path: seq<Records>, ops: seq<Op>, n: nat, id: string)
    requires History(env, path, ops) && n < |path| && Remembers(env, path, ops, 0, n)
    ensures Changes(path, n, id) <= 6
    ensures Changes(path, n, id) <= if id in path[n] then Rank(path[n][id].status) else 0
    decreases n
  {
    hide History, Remembers;
    if n > 0 {
      RememberedMoves(env, path, ops, 0, n, id);
      AtMostSixChanges(env, path, ops, n - 1, id);
      if id in path[n - 1] && path[n][id].status != path[n - 1][id].status {
        AllowedRises(path[n - 1][id].status, path[n][id].status);
      }
    }
  }

  /** The trust class of a record is a function of its status. */
  lemma {:induction false} ClassFollowsStatus(env: Env, path: seq<Records>, ops: seq<Op>, n: nat, id: string)
    requires History(env, path, ops) && n < |path| && id in path[n]
    ensures path[n][id].trust == ClassOf(path[n][id].status)
    decreases n
  {
    hide History;
    StartsEmpty(env, path, ops);
    MovesAt(env, path, ops, n - 1, id);
    if id in path[n - 1] && Moves(path[n - 1], path[n], id) {
      ClassFollowsStatus(env, path, ops, n - 1, id);
      if path[n][id].status != path[n - 1][id].status { AllowedRises(path[n - 1][id].status, path[n][id].status); }
    }
  }

  // ---------- changed artifacts ----------

  ghost predicate ScrubsOnce(env: Env) { forall s :: env.Scrub(env.Scrub(s)) == env.Scrub(s) }

  /** What is stored has been redacted, and redacting it again changes nothing. */
  ghost predicate Clean(env: Env, rs: Records) { forall id :: id in rs ==> ScrubRecord(env, rs[id]) == rs[id] }

  lemma ScrubRecordTwice(env: Env, r: Record)
    requires ScrubsOnce(env)
    ensures ScrubRecord(env, ScrubRecord(env, r)) == ScrubRecord(env, r)
  {
    forall ss ensures env.ScrubAll(env.ScrubAll(ss)) == env.ScrubAll(ss) { ScrubAllTwice(env, ss); }
    assert env.ScrubMap(env.ScrubMap(r.metadata)) == env.ScrubMap(r.metadata);
  }

  lemma ScrubAllTwice(env: Env, ss: set<string>)
    requires ScrubsOnce(env)
    ensures env.ScrubAll(env.ScrubAll(ss)) == env.ScrubAll(ss)
  {
    forall s | s in env.ScrubAll(ss) ensures s in env.ScrubAll(env.ScrubAll(ss)) { assert env.Scrub(s) == s; }
  }

  /** Writing changes the one record written. */
  lemma SaveOne(env: Env, rs: Records, id: string, r: Record)
    requires ScrubsOnce(env) && Clean(env, rs)
    ensures Clean(env, Save(env, rs[id := r]))
    ensures forall other :: other in rs && other != id ==> Save(env, rs[id := r])[other] == rs[other]
    ensures Save(env, rs[id := r])[id] == ScrubRecord(env, r)
    ensures Save(env, rs[id := r]).Keys == rs.Keys + {id}
  {
    hide ScrubRecord;
    forall x ensures ScrubRecord(env, ScrubRecord(env, x)) == ScrubRecord(env, x) { ScrubRecordTwice(env, x); }
  }

  lemma LoadedIsClean(env: Env, rs: Records, read: bool)
    requires Clean(env, rs)
    ensures Clean(env, Loaded(rs, read))
  {
  }

  lemma CreateLeavesOthers(env: Env, rs: Records, q: Request, now: real, read: bool)
    requires ScrubsOnce(env) && Clean(env, rs)
    ensures var t := Create(env, rs, q, now, read);
            && Clean(env, t.records)
            && (rs == map[] || read || !Files(q) ==>
                  && (forall id :: id in rs ==> id in t.records && t.records[id] == rs[id])
                  && (t.reply.Done? ==> t.reply.id !in rs && t.reply.id in t.records && Fresh(t.records[t.reply.id])))
  {
    hide Norm, IdOf, CreateIdentity, Save, Clean;
    var key := IdOf(env, CreateIdentity(env, q));
    LoadedIsClean(env, rs, read);
    SaveOne(env, Loaded(rs, read), key, NewRecord(env, q, now));
  }

  /** A registration whose version, digest or permission set differs, up to trimming and case, from
      that of an existing record leaves that record as it is, unless it forgets those on file, and
      does not answer with it: it answers with another record, which is fresh if it is new. */
  lemma ChangedArtifactIsReviewedAfresh(env: Env, rs: Records, q: Request, newest: Option<string>, now: real,
                                        read: bool, again: bool, i: Identity)
    requires ScrubsOnce(env) && Clean(env, rs) && IsNewest(Loaded(rs, read), q, newest)
    requires !Forgets(env, rs, Update(q, newest, now, read, again))
    requires IdOf(env, i) in rs && Unambiguous(i)
    requires var j := RegisterIdentity(Resolved(env, Loaded(rs, read), q, newest));
             Unambiguous(j) && !SameParts(i, j) && !Collide(env, i, j)
    ensures var t := Register(env, rs, q, newest, now, read, again); var former := IdOf(env, i);
            && former in t.records && t.records[former] == rs[former]
            && (t.reply.Done? ==> t.reply.id != former && t.reply.id in t.records
                                  && (t.reply.id !in rs ==> Fresh(t.records[t.reply.id])))
  {
    hide IdentityText, Unambiguous, SameParts, Collide, IsNewest, Clean, Save, Create, Resolved, RegisterIdentity,
         Fresh, Files;
    var seen := Loaded(rs, read);
    assert newest.Some? ==> newest.value in seen by { NewestIsThere(seen, q, newest); }
    ResolvedFiles(env, seen, q, newest);
    var full := Resolved(env, seen, q, newest);
    var j := RegisterIdentity(full);
    SameIdIff(env, i, j);
    var key := IdOf(env, j);
    if key in seen {
      SaveOne(env, rs, key, Refreshed(env, rs[key], full, now));
    } else {
      CreateLeavesOthers(env, rs, full, now, again);
    }
  }

  lemma NewestIsThere(rs: Records, q: Request, newest: Option<string>)
    requires IsNewest(rs, q, newest)
    ensures newest.Some? ==> newest.value in rs
  {
  }

  /** Without that proviso a review is inherited: a capability reviewed with version `1|2` and
      digest `3` answers for version `1` and digest `2|3`. */
  lemma ReviewCarriesOverBars(env: Env, rs: Records, q: Request, newest: Option<string>, now: real)
    requires newest.Some? ==> newest.value in rs
    requires q.version == "1" && q.digest == "2|3" && q.permissions.Some?
    requires var i := Identity(q.kind, q.source, q.name, "1|2", "3", Permissions(q.permissions));
             IdOf(env, i) in rs && rs[IdOf(env, i)].status.Approved?
    ensures var i := Identity(q.kind, q.source, q.name, "1|2", "3", Permissions(q.permissions));
            var t := Register(env, rs, q, newest, now);
            && t.reply == Done(IdOf(env, i)) && t.reply.id in t.records && t.records[t.reply.id].status.Approved?
  {
    hide Norm, Norms, Named;
    var perms := Permissions(q.permissions);
    var i := Identity(q.kind, q.source, q.name, "1|2", "3", perms);
    BarsBlurIdentities(env, q.kind, q.source, q.name, perms);
    assert Strip("1") == "1" && Strip("2|3") == "2|3" by { ShortStrips(); }
    assert RegisterIdentity(Resolved(env, rs, q, newest)) == Identity(q.kind, q.source, q.name, "1", "2|3", perms);
    RegisterMoves(env, rs, q, newest, now, true, true, IdOf(env, i));
  }

  lemma ShortStrips()
    ensures Strip("1") == "1" && Strip("2|3") == "2|3"
  {
  }

  /** Nor is one asked for when a comma moves: a capability approved for the one permission `a,b`
      answers for the two permissions `a` and `b`, still approved, and its request changes. */
  lemma ReviewCarriesOverCommas(env: Env, rs: Records, q: Request, newest: Option<string>, now: real)
    requires newest.Some? ==> newest.value in rs
    requires q.version == "1" && q.digest == "3" && q.permissions == Some({"a", "b"})
    requires Kept(env, {"a", "b"}) && Kept(env, {"a,b"})
    requires var id := IdOf(env, Identity(q.kind, q.source, q.name, "1", "3", {"a,b"}));
             id in rs && rs[id].status.Approved? && rs[id].approved == {"a,b"}
    ensures var id := IdOf(env, Identity(q.kind, q.source, q.name, "1", "3", {"a,b"}));
            var t := Register(env, rs, q, newest, now);
            && t.reply == Done(id) && id in t.records && t.records[id].status.Approved?
            && t.records[id].approved == {"a,b"} && t.records[id].requested == {"a", "b"}
  {
    hide Norm, Norms, IdentityText;
    var i := Identity(q.kind, q.source, q.name, "1", "3", {"a,b"});
    CommasBlurPermissions(env, i);
    ShortRequest();
    var full := Resolved(env, rs, q, newest);
    assert RegisterIdentity(full) == i.(perms := {"a", "b"});
    KeptIsFixed(env, {"a", "b"});
    KeptIsFixed(env, {"a,b"});
  }

  lemma ShortRequest()
    ensures Strip("1") == "1" && Strip("3") == "3" && Named({"a", "b"}) == {"a", "b"}
  {
    assert Strip("a") == "a" && Strip("b") == "b";
    assert "a" in {"a", "b"};
  }

  // ---------- approved permissions ----------

  /** SHA-1 prefixes of different texts differ. */
  ghost predicate NoCollisions(env: Env) { forall x, y :: env.sha(x) == env.sha(y) ==> x == y }

  /** Ids tell permission sets apart, up to trimming and case. */
  ghost predicate IdsTellPermissions(env: Env) {
    forall i, j :: Unambiguous(i) && Unambiguous(j) && IdOf(env, i) == IdOf(env, j) ==> Norms(i.perms) == Norms(j.perms)
  }

  lemma IdsTell(env: Env)
    requires NoCollisions(env)
    ensures IdsTellPermissions(env)
  {
    hide Unambiguous, Norms, IdentityText;
    forall i, j | Unambiguous(i) && Unambiguous(j) && IdOf(env, i) == IdOf(env, j)
      ensures Norms(i.perms) == Norms(j.perms)
    {
      SameIdIff(env, i, j);
    }
  }

  predicate Kept(env: Env, perms: set<string>) { forall p :: p in perms ==> env.Scrub(p) == p }

  lemma KeptIsFixed(env: Env, perms: set<string>)
    requires Kept(env, perms)
    ensures env.ScrubAll(perms) == perms
  {
    forall p | p in perms ensures p in env.ScrubAll(perms) { assert env.Scrub(p) == p; }
  }

  /** The scrubber leaves the permissions that are asked for alone, and neither the identity that is
      looked up nor the one that may be filed has a separator inside a part. */
  ghost predicate OpPlain(env: Env, rs: Records, op: Op) {
    match op
    case Add(q, _, _) => Kept(env, Permissions(q.permissions)) && Unambiguous(CreateIdentity(env, q))
    case Update(q, newest, _, read, _) =>
      && Kept(env, Permissions(q.permissions))
      && (newest.Some? ==> newest.value in Loaded(rs, read))
      && Unambiguous(RegisterIdentity(Resolved(env, Loaded(rs, read), q, newest)))
      && Unambiguous(CreateIdentity(env, Resolved(env, Loaded(rs, read), q, newest)))
    case Move(_, _, _, _, _, _) => true
  }

  ghost predicate Matches(env: Env, id: string, r: Record) {
    && Kept(env, r.requested) && Kept(env, r.approved)
    && (forall i :: Unambiguous(i) && IdOf(env, i) == id ==> Norms(r.requested) == Norms(i.perms))
    && (r.approved != {} || r.status.Approved? || r.status.Active? ==> Norms(r.approved) == Norms(r.requested))
  }

  ghost predicate AllMatch(env: Env, rs: Records) { forall id :: id in rs ==> Matches(env, id, rs[id]) }

  lemma SaveMatches(env: Env, rs: Records, id: string, r: Record)
    requires AllMatch(env, rs) && Matches(env, id, r)
    ensures AllMatch(env, Save(env, rs[id := r]))
  {
    hide IdOf, Norms;
    var t := rs[id := r];
    forall x | x in t ensures Matches(env, x, Save(env, t)[x]) {
      assert Matches(env, x, t[x]);
      KeptIsFixed(env, t[x].requested);
      KeptIsFixed(env, t[x].approved);
    }
  }

  lemma CreateMatches(env: Env, rs: Records, q: Request, now: real, read: bool)
    requires IdsTellPermissions(env) && AllMatch(env, rs) && Kept(env, Permissions(q.permissions))
    requires Unambiguous(CreateIdentity(env, q))
    ensures AllMatch(env, Create(env, rs, q, now, read).records)
  {
    LoadedMatches(env, rs, read);
    hide IdOf, Save, AllMatch, Norm, Norms, Strip, Unambiguous;
    var i := CreateIdentity(env, q);
    var r := NewRecord(env, q, now);
    KeptIsFixed(env, i.perms);
    KeptIsFixed(env, {});
    assert r.requested == i.perms && r.approved == {};
    if IdOf(env, i) !in Loaded(rs, read) { SaveMatches(env, Loaded(rs, read), IdOf(env, i), r); }
  }

  lemma LoadedMatches(env: Env, rs: Records, read: bool)
    requires AllMatch(env, rs)
    ensures AllMatch(env, Loaded(rs, read))
  {
  }

  lemma RegisterMatches(env: Env, rs: Records, q: Request, newest: Option<string>, now: real, read: bool, again: bool)
    requires IdsTellPermissions(env) && AllMatch(env, rs) && Kept(env, Permissions(q.permissions))
    requires newest.Some? ==> newest.value in Loaded(rs, read)
    requires Unambiguous(RegisterIdentity(Resolved(env, Loaded(rs, read), q, newest)))
    requires Unambiguous(CreateIdentity(env, Resolved(env, Loaded(rs, read), q, newest)))
    ensures AllMatch(env, Register(env, rs, q, newest, now, read, again).records)
  {
    hide IdOf, Save, Norm, Norms, Create, Unambiguous, CreateIdentity;
    var seen := Loaded(rs, read);
    LoadedMatches(env, rs, read);
    var full := Resolved(env, seen, q, newest);
    var j := RegisterIdentity(full);
    var id := IdOf(env, j);
    if newest.Some? { assert Matches(env, newest.value, seen[newest.value]); }
    if id in seen {
      assert Matches(env, id, rs[id]);
      SaveMatches(env, rs, id, Refreshed(env, rs[id], full, now));
    } else {
      ResolvedStaysKept(env, seen, q, newest);
      CreateMatches(env, rs, full, now, again);
    }
  }

  lemma ResolvedStaysKept(env: Env, rs: Records, q: Request, newest: Option<string>)
    requires AllMatch(env, rs) && Kept(env, Permissions(q.permissions)) && (newest.Some? ==> newest.value in rs)
    ensures Kept(env, Permissions(Resolved(env, rs, q, newest).permissions))
  {
    hide Norm, Norms, IdOf;
    if newest.Some? {
      assert Matches(env, newest.value, rs[newest.value]);
      NamedKept(env, rs[newest.value].requested);
    }
    NamedKept(env, Permissions(q.permissions));
  }

  lemma NamedKept(env: Env, perms: set<string>)
    requires Kept(env, perms)
    ensures Kept(env, Named(perms)) && Norms(Named(perms)) == Norms(perms)
  {
  }

  lemma TransitionMatches(env: Env, rs: Records, id: string, status: string, reviewer: string, reason: string,
                          now: real, read: bool)
    requires AllMatch(env, rs)
    ensures AllMatch(env, Transition(env, rs, id, status, reviewer, reason, now, read).records)
  {
    hide IdOf, Save, Norms, Strip, ParseStatus, Named;
    var s, key := ParseStatus(status), Strip(id);
    if s.Some? && key in rs && s.value in Allowed(rs[key].status) {
      assert Matches(env, key, rs[key]);
      NamedKept(env, rs[key].requested);
      SaveMatches(env, rs, key, Moved(rs[key], s.value, reviewer, reason, now));
    }
  }

  lemma {:induction false} MatchesInEveryHistory(env: Env, path: seq<Records>, ops: seq<Op>, n: nat)
    requires IdsTellPermissions(env) && History(env, path, ops) && n < |path|
    requires forall k :: 0 <= k < |ops| ==> OpPlain(env, path[k], ops[k])
    ensures AllMatch(env, path[n])
  {
    hide AllMatch, Create, Register, Transition, Kept, IdsTellPermissions, Unambiguous, CreateIdentity, Resolved;
    if n == 0 {
      NothingMatches(env);
    } else {
      MatchesInEveryHistory(env, path, ops, n - 1);
      var rs := path[n - 1];
      assert Enabled(rs, ops[n - 1]) && path[n] == Next(env, rs, ops[n - 1]) && OpPlain(env, rs, ops[n - 1]);
      match ops[n - 1]
      case Add(q, now, read) => CreateMatches(env, rs, q, now, read);
      case Update(q, newest, now, read, again) => RegisterMatches(env, rs, q, newest, now, read, again);
      case Move(id, status, reviewer, reason, now, read) =>
        TransitionMatches(env, rs, id, status, reviewer, reason, now, read);
    }
  }

  lemma NothingMatches(env: Env)
    ensures AllMatch(env, map[])
  {
  }

  /** The permissions approved for a reviewed record are, up to trimming and case, those its id was
      made from, whatever was registered since, as long as no identity has a separator inside a
      part and SHA-1 prefixes do not collide. */
  lemma ApprovedPermissionsMatchTheId(env: Env, path: seq<Records>, ops: seq<Op>, n: nat, i: Identity)
    requires NoCollisions(env) && History(env, path, ops) && n < |path|
    requires forall k :: 0 <= k < |ops| ==> OpPlain(env, path[k], ops[k])
    requires Unambiguous(i)
    requires HasStatus(path[n], IdOf(env, i), Approved) || HasStatus(path[n], IdOf(env, i), Active)
    ensures Norms(path[n][IdOf(env, i)].approved) == Norms(i.perms)
  {
    hide History, IdOf, Norms, OpPlain, Unambiguous, NoCollisions;
    IdsTell(env);
    MatchesInEveryHistory(env, path, ops, n);
    assert Matches(env, IdOf(env, i), path[n][IdOf(env, i)]);
  }

  lemma {:induction false} CleanInEveryHistory(env: Env, path: seq<Records>, ops: seq<Op>, n: nat)
    requires ScrubsOnce(env) && History(env, path, ops) && n < |path|
    ensures Clean(env, path[n])
  {
    hide Create, Register, Transition, Clean, ScrubsOnce;
    if n == 0 {
      NothingIsClean(env);
    } else {
      CleanInEveryHistory(env, path, ops, n - 1);
      assert Enabled(path[n - 1], ops[n - 1]) && path[n] == Next(env, path[n - 1], ops[n - 1]);
      StepKeepsClean(env, path[n - 1], ops[n - 1]);
    }
  }

  lemma NothingIsClean(env: Env)
    ensures Clean(env, map[])
  {
  }

  lemma StepKeepsClean(env: Env, rs: Records, op: Op)
    requires ScrubsOnce(env) && Clean(env, rs) && Enabled(rs, op)
    ensures Clean(env, Next(env, rs, op))
  {
    hide Create, Register, Transition, Clean, ScrubsOnce;
    match op
    case Add(q, now, read) => CreateLeavesOthers(env, rs, q, now, read);
    case Update(q, newest, now, read, again) => RegisterKeepsClean(env, rs, q, newest, now, read, again);
    case Move(id, status, reviewer, reason, now, read) =>
      TransitionKeepsClean(env, rs, id, status, reviewer, reason, now, read);
  }

  lemma RegisterKeepsClean(env: Env, rs: Records, q: Request, newest: Option<string>, now: real, read: bool,
                           again: bool)
    requires ScrubsOnce(env) && Clean(env, rs) && (newest.Some? ==> newest.value in Loaded(rs, read))
    ensures Clean(env, Register(env, rs, q, newest, now, read, again).records)
  {
    hide IdOf, Resolved, RegisterIdentity, Create, Save, Clean, ScrubsOnce, Refreshed, Files;
    var full := Resolved(env, Loaded(rs, read), q, newest);
    var key := IdOf(env, RegisterIdentity(full));
    if key in Loaded(rs, read) {
      SaveOne(env, rs, key, Refreshed(env, rs[key], full, now));
    } else {
      CreateLeavesOthers(env, rs, full, now, again);
    }
  }

  lemma TransitionKeepsClean(env: Env, rs: Records, id: string, status: string, reviewer: string, reason: string,
                             now: real, read: bool)
    requires ScrubsOnce(env) && Clean(env, rs)
    ensures Clean(env, Transition(env, rs, id, status, reviewer, reason, now, read).records)
  {
    hide ParseStatus, Strip, Save, Clean, ScrubsOnce, Moved;
    var s, key := ParseStatus(status), Strip(id);
    if s.Some? && key in rs { SaveOne(env, rs, key, Moved(rs[key], s.value, reviewer, reason, now)); }
  }
}
