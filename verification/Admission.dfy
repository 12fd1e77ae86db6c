/** The capability admission registry (ghostchimera/capability_admission.py): identities, the
    record map and its three operations. */
module Admission {
  import opened Wrappers
  import opened Redaction
  import opened Text
  import opened Listing

  // ---------- statuses ----------

  datatype Status = Discovered | Inspected | ReviewRequired | Approved | Active | Quarantined | Revoked

  /** `ALLOWED_TRANSITIONS` */
  function Allowed(s: Status): set<Status> {
    match s
    case Discovered => {Inspected, Revoked, Quarantined}
    case Inspected => {ReviewRequired, Approved, Revoked, Quarantined}
    case ReviewRequired => {Approved, Revoked, Quarantined}
    case Approved => {Active, Revoked, Quarantined}
    case Active => {Revoked, Quarantined}
    case Quarantined => {Revoked}
    case Revoked => {}
  }

  function Norm(s: string): string { Lower(Strip(s)) }

  function ParseStatus(text: string): Option<Status> {
    var t := Norm(text);
    if t == "discovered" then Some(Discovered)
    else if t == "inspected" then Some(Inspected)
    else if t == "review_required" then Some(ReviewRequired)
    else if t == "approved" then Some(Approved)
    else if t == "active" then Some(Active)
    else if t == "quarantined" then Some(Quarantined)
    else if t == "revoked" then Some(Revoked)
    else None
  }

  datatype TrustClass = Unreviewed | Reviewed | OnHold | Withdrawn

  datatype Record = Record(
    kind: string,
    name: string,
    source: string,
    status: Status,
    riskLevel: string,
    riskCeiling: string,
    requested: set<string>,
    approved: set<string>,
    trust: TrustClass,
    version: string,
    digest: string,
    metadata: map<string, string>,
    reviewer: string,
    reason: string,
    updatedAt: real)

  type Records = map<string, Record>

  /** The redactor, and the SHA-1 prefix of a text. */
  datatype Env = Env(redactor: Redactor, sha: string -> string)
  {
    function Scrub(s: string): string { redactor.scrub(s) }

    function ScrubAll(ss: set<string>): set<string> { set s | s in ss :: Scrub(s) }

    function ScrubMap(m: map<string, string>): map<string, string> {
      map k | k in m :: if redactor.marked(k) then (if m[k] == "" then "" else REDACTED) else Scrub(m[k])
    }
  }

  /** Records are redacted as a whole whenever the map is written. */
  function ScrubRecord(env: Env, r: Record): Record {
    r.(kind := env.Scrub(r.kind), name := env.Scrub(r.name), source := env.Scrub(r.source),
       riskLevel := env.Scrub(r.riskLevel), riskCeiling := env.Scrub(r.riskCeiling),
       requested := env.ScrubAll(r.requested), approved := env.ScrubAll(r.approved),
       version := env.Scrub(r.version), digest := env.Scrub(r.digest), metadata := env.ScrubMap(r.metadata),
       reviewer := env.Scrub(r.reviewer), reason := env.Scrub(r.reason))
  }

  function Save(env: Env, rs: Records): Records { map id | id in rs :: ScrubRecord(env, rs[id]) }

  // ---------- identities ----------

  /** Python's `a or b` on texts. */
  function Or(a: string, b: string): string { if a != "" then a else b }

  function Get(m: map<string, string>, key: string): string { if key in m then m[key] else "" }

  function Named(perms: set<string>): set<string> { set p | p in perms && Strip(p) != "" }

  /** A permission set up to trimming and case. */
  function Norms(perms: set<string>): set<string> { set p | p in perms && Strip(p) != "" :: Norm(p) }

  datatype Identity = Identity(kind: string, source: string, name: string, version: string, digest: string,
                               perms: set<string>)

  /** `_join`: the parts, trimmed and in lower case, and the sorted permissions joined with commas. */
  function IdentityText(i: Identity): string {
    Norm(i.kind) + ['|'] + (Norm(i.source) + ['|'] + (Norm(i.name) + ['|'] + (Norm(i.version) + ['|']
    + (Norm(i.digest) + ['|'] + Norm(CommaText(Norms(i.perms)))))))
  }

  /** `capability_identity` on resolved values */
  function IdOf(env: Env, i: Identity): string { env.sha(IdentityText(i)) }

  // ---------- operations ----------

  datatype Request = Request(
    kind: string, name: string, source: string, riskLevel: string, riskCeiling: string,
    permissions: Option<set<string>>, metadata: map<string, string>, version: string, digest: string)

  datatype Reply = Done(id: string) | Exists(id: string) | BadArgument | BadStatus | NotFound | BadTransition

  datatype Turn = Turn(records: Records, reply: Reply)

  function NormRisk(risk: string): string {
    var r := Norm(risk); if r in {"low", "medium", "high", "critical"} then r else "medium"
  }

  function SourceOf(source: string): string { Or(Strip(Or(source, "local")), "local") }

  function Permissions(p: Option<set<string>>): set<string> { if p.Some? then Named(p.value) else {} }

  function MetaVersion(meta: map<string, string>): string { Get(meta, "version") }

  function MetaDigest(meta: map<string, string>): string {
    Or(Get(meta, "artifact_digest"), Or(Get(meta, "digest"), Get(meta, "sha256")))
  }

  /** The identity under which `create_record` files a request. */
  function CreateIdentity(env: Env, q: Request): Identity {
    var meta := env.ScrubMap(q.metadata);
    Identity(Norm(q.kind), q.source, Strip(q.name), Strip(Or(q.version, MetaVersion(meta))),
             Strip(Or(q.digest, MetaDigest(meta))), Permissions(q.permissions))
  }

  function NewRecord(env: Env, q: Request, now: real): Record {
    var i := CreateIdentity(env, q);
    ScrubRecord(env, Record(i.kind, i.name, SourceOf(q.source), Discovered, NormRisk(q.riskLevel),
                            NormRisk(q.riskCeiling),
                            i.perms, {}, Unreviewed, i.version, i.digest, env.ScrubMap(q.metadata), "", "", now))
  }

  /** `_load_records`: a file that cannot be read counts as empty. */
  function Loaded(rs: Records, read: bool): Records { if read then rs else map[] }

  /** `create_record` */
  function Create(env: Env, rs: Records, q: Request, now: real, read: bool := true): Turn {
    if Norm(q.kind) == "" || Strip(q.name) == "" then Turn(rs, BadArgument)
    else
      var id, seen := IdOf(env, CreateIdentity(env, q)), Loaded(rs, read);
      if id in seen then Turn(rs, Exists(id))
      else Turn(Save(env, seen[id := NewRecord(env, q, now)]), Done(id))
  }

  /** The record is of the same kind, source and name as the request. */
  predicate Sibling(r: Record, q: Request) {
    Norm(r.kind) == Norm(q.kind) && Strip(r.source) == SourceOf(q.source) && Strip(r.name) == Strip(q.name)
  }

  /** `newest` is the id of a sibling that was updated last, if there is a sibling. */
  ghost predicate IsNewest(rs: Records, q: Request, newest: Option<string>) {
    if newest.Some? then
      && newest.value in rs && Sibling(rs[newest.value], q)
      && forall id :: id in rs && Sibling(rs[id], q) ==> rs[id].updatedAt <= rs[newest.value].updatedAt
    else forall id :: id in rs ==> !Sibling(rs[id], q)
  }

  /** What `register_or_update` fills in: the request, then its metadata, then the newest sibling. */
  function Resolved(env: Env, rs: Records, q: Request, newest: Option<string>): Request
    requires newest.Some? ==> newest.value in rs
  {
    var meta := env.ScrubMap(q.metadata);
    var (oldVersion, oldDigest) :=
      if newest.Some? then (rs[newest.value].version, rs[newest.value].digest) else ("", "");
    var perms :=
      if q.permissions == None && newest.Some? then rs[newest.value].requested else Permissions(q.permissions);
    q.(version := Strip(Or(q.version, Or(MetaVersion(meta), oldVersion))),
       digest := Strip(Or(q.digest, Or(MetaDigest(meta), oldDigest))),
       permissions := if perms == {} then None else Some(perms))
  }

  function RegisterIdentity(q: Request): Identity {
    Identity(q.kind, q.source, q.name, q.version, q.digest, if q.permissions.Some? then q.permissions.value else {})
  }

  /** A record of the same identity is refreshed; its status and approvals stay. */
  function Refreshed(env: Env, r: Record, q: Request, now: real): Record {
    r.(riskLevel := NormRisk(Or(q.riskLevel, r.riskLevel)), riskCeiling := NormRisk(Or(q.riskCeiling, r.riskCeiling)),
       requested := if q.permissions.Some? then q.permissions.value else r.requested,
       metadata := env.ScrubMap(r.metadata + env.ScrubMap(q.metadata)), updatedAt := now)
  }

  /** `register_or_update`.  It loads the records once, and a new record is filed by `create_record`,
      which loads them again. */
  function Register(env: Env, rs: Records, q: Request, newest: Option<string>, now: real, read: bool := true,
                    again: bool := true): Turn
    requires newest.Some? ==> newest.value in Loaded(rs, read)
  {
    var full := Resolved(env, Loaded(rs, read), q, newest);
    var id := IdOf(env, RegisterIdentity(full));
    if id !in Loaded(rs, read) then Create(env, rs, full, now, again)
    else Turn(Save(env, rs[id := Refreshed(env, rs[id], full, now)]), Done(id))
  }

  function Moved(r: Record, s: Status, reviewer: string, reason: string, now: real): Record {
    var m := r.(status := s, reviewer := Or(reviewer, r.reviewer), reason := Or(reason, r.reason), updatedAt := now);
    if s.Approved? || s.Active? then
      m.(approved := if r.approved != {} then r.approved else Named(r.requested), trust := Reviewed)
    else if s.Revoked? then m.(trust := Withdrawn)
    else if s.Quarantined? then m.(trust := OnHold)
    else m
  }

  /** `transition` */
  function Transition(env: Env, rs: Records, id: string, status: string, reviewer: string, reason: string,
                      now: real, read: bool := true): Turn
  {
    var s, key := ParseStatus(status), Strip(id);
    if s.None? then Turn(rs, BadStatus)
    else if key !in Loaded(rs, read) then Turn(rs, NotFound)
    else if s.value == rs[key].status then Turn(rs, Done(key))
    else if s.value !in Allowed(rs[key].status) then Turn(rs, BadTransition)
    else Turn(Save(env, rs[key := Moved(rs[key], s.value, reviewer, reason, now)]), Done(key))
  }

  // ---------- the registry ----------

  class CapabilityAdmissionStore {
    const env: Env
    var records: Records

    constructor (env: Env)
      ensures this.env == env && records == map[]
    {
      this.env := env;
      records := map[];
    }

    method CreateRecord(q: Request, now: real, read: bool) returns (reply: Reply)
      modifies this
      ensures Turn(records, reply) == Create(env, old(records), q, now, read)
    {
      var kind, name := Norm(q.kind), Strip(q.name);
      if kind == "" || name == "" { return BadArgument; }
      var meta := env.ScrubMap(q.metadata);
      var version := Strip(Or(q.version, MetaVersion(meta)));
      var digest := Strip(Or(q.digest, MetaDigest(meta)));
      var id := IdOf(env, Identity(kind, q.source, name, version, digest, Permissions(q.permissions)));
      var seen := Loaded(records, read);
      if id in seen { return Exists(id); }
      records := Save(env, seen[id := NewRecord(env, q, now)]);
      reply := Done(id);
    }

    /** `max(siblings, key=updated_at)` */
    method NewestSibling(rs: Records, q: Request) returns (newest: Option<string>)
      ensures IsNewest(rs, q, newest)
    {
      newest := None;
      var todo := rs.Keys;
      while todo != {}
        invariant todo <= rs.Keys
        invariant newest.Some? ==> newest.value in rs && Sibling(rs[newest.value], q)
        invariant forall id :: id in rs && id !in todo && Sibling(rs[id], q) ==>
                    newest.Some? && rs[id].updatedAt <= rs[newest.value].updatedAt
        decreases todo
      {
        var id :| id in todo;
        if Sibling(rs[id], q) && (newest.None? || rs[id].updatedAt > rs[newest.value].updatedAt) {
          newest := Some(id);
        }
        todo := todo - {id};
      }
    }

    method RegisterOrUpdate(q: Request, now: real, read: bool, again: bool)
        returns (reply: Reply, ghost newest: Option<string>)
      modifies this
      ensures IsNewest(Loaded(old(records), read), q, newest)
      ensures Turn(records, reply) == Register(env, old(records), q, newest, now, read, again)
    {
      var seen := Loaded(records, read);
      var sibling := NewestSibling(seen, q);
      newest := sibling;
      var full := Resolved(env, seen, q, sibling);
      var id := IdOf(env, RegisterIdentity(full));
      if id !in seen {
        reply := CreateRecord(full, now, again);
      } else {
        records := Save(env, records[id := Refreshed(env, records[id], full, now)]);
        reply := Done(id);
      }
    }

    method MoveTo(id: string, status: string, reviewer: string, reason: string, now: real, read: bool)
        returns (reply: Reply)
      modifies this
      ensures Turn(records, reply) == Transition(env, old(records), id, status, reviewer, reason, now, read)
    {
      var s, key := ParseStatus(status), Strip(id);
      if s.None? { return BadStatus; }
      if key !in Loaded(records, read) { return NotFound; }
      var record := records[key];
      if s.value == record.status { return Done(key); }
      if s.value !in Allowed(record.status) { return BadTransition; }
      record := record.(status := s.value, reviewer := Or(reviewer, record.reviewer),
                        reason := Or(reason, record.reason), updatedAt := now);
      if s.value in {Approved, Active} {
        if record.approved == {} { record := record.(approved := Named(record.requested)); }
        record := record.(trust := Reviewed);
      }
      if s.value in {Revoked, Quarantined} {
        record := record.(trust := if s.value == Revoked then Withdrawn else OnHold);
      }
      records := Save(env, records[key := record]);
      reply := Done(key);
    }
  }
}
