/** The upload finisher as a step machine. Each step is one call to a store, so any number of
    deliveries, `/complete` calls, clients and clocks interleave between any two calls, and a
    delivery can die anywhere. */
module Worker {
  import opened Wrappers
  import opened Domain
  import opened Fold
  import opened Subject
  import opened EventStore
  import opened UploadRecord
  import opened BlobStore
  import Transition

  datatype ConflictPolicy = Supersede | Fail

  /** What preflight fixed of a work item. Object and record keys are functions of it. */
  datatype Command = Command(
    tenantId: Id,
    ownerUserId: Id,
    uploadId: Id,
    documentId: Id,
    mode: UploadMode,
    multipartUploadId: Id,
    filename: string,
    contentType: string,
    declaredSize: nat)

  /** What one `/complete` asks for. Two requests for an upload may ask for different things, so each delivery has
      its own. */
  datatype Ask = Ask(ifMatch: Option<nat>, onConflict: ConflictPolicy, patch: MetadataPatch)

  /** The content validator, the scanner and its digest, as functions of what they are shown. */
  datatype Verifiers = Verifiers(
    accepts: (nat, Bytes, Command) -> bool,
    clean: Bytes -> bool,
    digest: Bytes -> string)

  /** Every delivery of an upload carries what its preflight fixed. */
  datatype Config = Config(commands: map<Id, Command>, verify: Verifiers)

  function Checksum(cfg: Config, bytes: Bytes): string {
    "sha256:" + cfg.verify.digest(bytes)
  }

  function DocKey(c: Command): Key {
    Key(c.tenantId, c.documentId)
  }

  function Object(c: Command): ObjectKey {
    ObjectKey(c.tenantId, c.uploadId)
  }

  function Multipart(c: Command): MultipartKey {
    MultipartKey(Object(c), c.multipartUploadId)
  }

  function Record(c: Command): RecordKey {
    RecordKey(c.tenantId, c.ownerUserId, c.uploadId)
  }

  /** Minted ids are fresh: uploads are told apart by their id, and a document is created by one upload. */
  predicate FreshIds(cfg: Config) {
    && (forall u :: u in cfg.commands ==> cfg.commands[u].uploadId == u)
    && forall u, v :: u in cfg.commands && v in cfg.commands && SameCreate(cfg.commands[u], cfg.commands[v]) ==> u == v
  }

  predicate SameCreate(c: Command, d: Command) {
    c.mode.Create? && d.mode.Create? && DocKey(c) == DocKey(d)
  }

  // ------------------------------------------------------------------ events a command produces

  function EventIdOf(c: Command): EventId {
    if c.mode.Create? then CreatedId(c.tenantId, c.uploadId) else BlobValidatedId(c.tenantId, c.uploadId)
  }

  function Facts(c: Command, checksum: string): BlobFacts {
    BlobFacts(c.uploadId, c.filename, c.contentType, c.declaredSize, checksum)
  }

  function CreatedEvent(c: Command, ask: Ask, checksum: string, now: int): DocumentEvent {
    DocumentEvent(CreatedId(c.tenantId, c.uploadId), c.tenantId, c.documentId, User(c.ownerUserId), 1, now,
                  DocumentCreated(Facts(c, checksum), ask.patch))
  }

  function ValidatedEvent(c: Command, ask: Ask, checksum: string, now: int, version: nat): DocumentEvent {
    DocumentEvent(BlobValidatedId(c.tenantId, c.uploadId), c.tenantId, c.documentId, User(c.ownerUserId), version, now,
                  DocumentBlobValidated(Facts(c, checksum), ask.patch, ask.ifMatch))
  }

  predicate Names(e: DocumentEvent, u: Id) {
    BlobRef(e.payload) == Some(u)
  }

  /** The blob facts an event carries. */
  function FactsOf(p: Payload): Option<BlobFacts> {
    match p
    case DocumentCreated(b, _) => Some(b)
    case DocumentBlobValidated(b, _, _) => Some(b)
    case _ => None
  }

  /** The first event of a history that names an upload. */
  function FindBlob(xs: seq<Entry>, u: Id): Option<Entry> {
    if xs == [] then None else if Names(xs[0].event, u) then Some(xs[0]) else FindBlob(xs[1..], u)
  }

  predicate Differs(based: Option<nat>, version: nat) {
    based.Some? && based.value != (if version == 0 then 0 else version - 1)
  }

  predicate SupersededFlag(e: DocumentEvent) {
    e.payload.DocumentBlobValidated? && Differs(e.payload.basedOnVersion, e.version)
  }

  // ------------------------------------------------------------------ program points

  datatype FinishOutcome =
    | AcceptedOutcome(documentId: Id, version: nat, superseded: bool)
    | RejectedOutcome(reason: string)
    | RetryOutcome

  datatype Pc =
    | LoadRecord
    | CheckHistory
    | ListParts
    | Assemble(parts: seq<CompletedPart>)
    | Head
    | ReadPrefix(size: nat)
    | Validate(size: nat, prefix: Bytes)
    | OpenRead
    | Scan(bytes: Bytes)
    | AppendCreate(checksum: string)
    | LastAfterCreate
    | ReadHistory(checksum: string)
    | LastForUpdate(checksum: string, ts: int, attempt: nat)
    | AppendUpdate(checksum: string, ts: int, attempt: nat, version: nat, seqNo: nat)
    | LastAfterDuplicate
    | AbortMultipart(reason: string, recorded: bool)
    | DeleteObject(reason: string, recorded: bool)
    | Recording(status: UploadStatus, call: Transition.Call)
    | Done(outcome: FinishOutcome, expired: bool)

  const UPDATE_ATTEMPTS := 3

  function Retry(last: bool): Pc {
    if last then Reject("pipeline_failed") else Done(RetryOutcome, false)
  }

  function Reject(reason: string): Pc {
    AbortMultipart(reason, true)
  }

  function Accept(version: nat, superseded: bool): Pc {
    Recording(Accepted(version, superseded), Transition.Reading(0))
  }

  function OutcomeOf(c: Command, s: UploadStatus): FinishOutcome {
    match s
    case Accepted(v, sup) => AcceptedOutcome(c.documentId, v, sup)
    case Rejected(reason) => RejectedOutcome(reason)
    case _ => RetryOutcome
  }

  function LoadedStatus(rs: Records, c: Command): Option<UploadStatus> {
    if Record(c) in rs && rs[Record(c)].state.pre.ownerUserId == c.ownerUserId
       && rs[Record(c)].state.pre.tenantId == c.tenantId
    then Some(rs[Record(c)].state.status)
    else None
  }

  /** Where `append_update` goes on its store's answer. */
  function AfterUpdate(ask: Ask, last: bool, pc: Pc, reply: Result<Appended, StoreError>): Pc
    requires pc.AppendUpdate?
  {
    match reply
    case Ok(a) => if a.duplicate then LastAfterDuplicate else Accept(a.version, Differs(ask.ifMatch, a.version))
    case Err(_) =>
      if pc.attempt + 1 < UPDATE_ATTEMPTS then LastForUpdate(pc.checksum, pc.ts, pc.attempt + 1) else Retry(last)
  }

  /** The replace path after reading the whole history: redelivery guard, fold, conflict policy. */
  function AfterHistory(c: Command, ask: Ask, checksum: string, xs: seq<Entry>, now: int): Pc {
    match FindBlob(xs, c.uploadId)
    case Some(x) => Accept(x.event.version, SupersededFlag(x.event))
    case None =>
      match FoldHistory(xs)
      case Err(_) => Reject("corrupt_history")
      case Ok(None) => Reject("multipart_lost")
      case Ok(Some(s)) =>
        if ask.ifMatch.Some? && ask.ifMatch.value != s.version && ask.onConflict.Fail? then Reject("version_conflict")
        else LastForUpdate(checksum, now, 0)
  }

  function CreateEvent(c: Command, ask: Ask, pc: Pc, now: int): DocumentEvent
    requires pc.AppendCreate?
  {
    CreatedEvent(c, ask, pc.checksum, now)
  }

  function UpdateEvent(c: Command, ask: Ask, pc: Pc): DocumentEvent
    requires pc.AppendUpdate?
  {
    ValidatedEvent(c, ask, pc.checksum, pc.ts, pc.version + 1)
  }

  predicate Verifying(pc: Pc) {
    pc.ListParts? || pc.Assemble? || pc.Head? || pc.ReadPrefix? || pc.Validate? || pc.OpenRead? || pc.Scan?
  }

  predicate Logging(pc: Pc) {
    pc.CheckHistory? || pc.AppendCreate? || pc.LastAfterCreate? || pc.ReadHistory? || pc.LastForUpdate?
    || pc.AppendUpdate? || pc.LastAfterDuplicate?
  }

  /** Next program point while the object is being assembled and verified. */
  function VerifyNext(cfg: Config, c: Command, last: bool, pc: Pc, b: Blobs, port: Port): Pc
    requires Verifying(pc)
  {
    if pc.Assemble? && port.Refused? then Reject("invalid_parts")
    else if !port.Works? then Retry(last)
    else
      match pc
      case ListParts =>
        if Multipart(c) !in b.multiparts then Head
        else if b.multiparts[Multipart(c)] == [] then Reject("invalid_parts")
        else Assemble(Completed(SortParts(b.multiparts[Multipart(c)])))
      case Assemble(parts) =>
        if Multipart(c) in b.multiparts && Assembled(b.multiparts[Multipart(c)], parts).None?
        then Reject("invalid_parts") else Head
      case Head =>
        if Object(c) !in b.objects then Reject("multipart_lost")
        else if |b.objects[Object(c)]| != c.declaredSize then Reject("size_mismatch")
        else ReadPrefix(|b.objects[Object(c)]|)
      case ReadPrefix(size) =>
        if Object(c) !in b.objects then Retry(last) else Validate(size, Prefix(b.objects[Object(c)]))
      case Validate(size, prefix) =>
        if cfg.verify.accepts(size, prefix, c) then OpenRead else Reject("content_rejected")
      case OpenRead =>
        if Object(c) !in b.objects then Retry(last) else Scan(b.objects[Object(c)])
      case Scan(bytes) =>
        if !cfg.verify.clean(bytes) then Reject("malware_detected")
        else if |bytes| != c.declaredSize then Reject("size_mismatch")
        else
          var checksum := Checksum(cfg, bytes);
          if c.mode.Create? then AppendCreate(checksum) else ReadHistory(checksum)
  }

  /** Next program point while the log is being asked or appended to. */
  function LogNext(c: Command, ask: Ask, last: bool, pc: Pc, log: Log, port: Port, now: int): Pc
    requires Logging(pc)
  {
    if !port.Works? then Retry(last)
    else
      match pc
      case CheckHistory =>
        (match FindBlob(Stream(log, DocKey(c)), c.uploadId)
         case Some(x) => Done(AcceptedOutcome(c.documentId, x.event.version, false), true)
         case None => AbortMultipart("upload_expired", false))
      case AppendCreate(_) =>
        (match PublishReply(log, CreateEvent(c, ask, pc, now), CreateOnly)
         case Ok(a) => if a.duplicate then LastAfterCreate else Accept(a.version, false)
         case Err(_) => LastAfterCreate)
      case LastAfterCreate =>
        (match Last(log, DocKey(c)) case None => Retry(last) case Some(t) => Accept(t.version, false))
      case ReadHistory(checksum) => AfterHistory(c, ask, checksum, Stream(log, DocKey(c)), now)
      case LastForUpdate(checksum, ts, attempt) =>
        (match Last(log, DocKey(c))
         case None => Retry(last)
         case Some(t) => AppendUpdate(checksum, ts, attempt, t.version, t.streamSeq))
      case AppendUpdate(_, _, _, _, seqNo) =>
        AfterUpdate(ask, last, pc, PublishReply(log, UpdateEvent(c, ask, pc), Exactly(seqNo)))
      case LastAfterDuplicate =>
        (match Last(log, DocKey(c))
         case None => Retry(last)
         case Some(t) => Accept(t.version, Differs(ask.ifMatch, t.version)))
  }

  /** Next program point while the record is being read or written, and while bytes are given back. */
  function RecordNext(c: Command, last: bool, pc: Pc, rs: Records, port: Port, now: int): Pc
    requires !Verifying(pc) && !Logging(pc)
  {
    match pc
    case LoadRecord =>
      if !port.Works? then Retry(last)
      else
        (match LoadedStatus(rs, c)
         case None => CheckHistory
         case Some(s) => if IsTerminal(s) then Done(OutcomeOf(c, s), false) else ListParts)
    // A failed abort or delete is logged and ignored.
    case AbortMultipart(reason, recorded) => DeleteObject(reason, recorded)
    case DeleteObject(reason, recorded) =>
      if recorded then Recording(Rejected(reason), Transition.Reading(0)) else Done(RejectedOutcome(reason), true)
    case Recording(status, call) =>
      var next := Transition.CallNext(rs, Record(c), status, now, call, port);
      if next.Returned? then Done(OutcomeOf(c, status), false) else Recording(status, next)
    case Done(_, _) => pc
  }

  function NextPc(cfg: Config, c: Command, ask: Ask, last: bool, pc: Pc, log: Log, b: Blobs, rs: Records, port: Port,
                  now: int): Pc {
    if Verifying(pc) then VerifyNext(cfg, c, last, pc, b, port)
    else if Logging(pc) then LogNext(c, ask, last, pc, log, port, now)
    else RecordNext(c, last, pc, rs, port, now)
  }

  // ------------------------------------------------------------------ effects, store by store

  function NextLog(c: Command, ask: Ask, pc: Pc, log: Log, port: Port, now: int): Log {
    if !TakesEffect(port) then log
    else if pc.AppendCreate? then Publish(log, CreateEvent(c, ask, pc, now), CreateOnly)
    else if pc.AppendUpdate? then Publish(log, UpdateEvent(c, ask, pc), Exactly(pc.seqNo))
    else log
  }

  function NextBlobs(c: Command, pc: Pc, b: Blobs, port: Port): Blobs {
    if !TakesEffect(port) then b
    else if pc.Assemble? then Complete(b, Multipart(c), pc.parts)
    else if pc.AbortMultipart? then Abort(b, Multipart(c))
    else if pc.DeleteObject? then Delete(b, Object(c))
    else b
  }

  function NextRecords(pc: Pc, rs: Records, port: Port, now: int): Records {
    if pc.Recording? then Transition.CallRecords(rs, pc.status, now, pc.call, port) else rs
  }

  // ------------------------------------------------------------------ the whole system

  datatype Proc = Proc(upload: Id, ask: Ask, last: bool, pc: Pc)

  /** A `/complete` request marking its record `scanning`. */
  datatype ApiCall = ApiCall(upload: Id, call: Transition.Call)

  datatype World = World(
    log: Log,
    blobs: Blobs,
    records: Records,
    begun: set<Id>,
    procs: map<nat, Proc>,
    api: map<nat, ApiCall>)

  datatype Action =
    | Preflights(u: Id, pre: Preflight, now: int)
    | UploadsPart(u: Id, part: Part)
    | Completes(pid: nat, u: Id)
    | ApiSteps(pid: nat, port: Port, now: int)
    | Delivers(pid: nat, u: Id, ask: Ask, last: bool)
    | Steps(pid: nat, port: Port, now: int)
    | Crashes(pid: nat)
    | Expires(u: Id)
    | Reaps(u: Id)
    | Forgets(u: Id)

  const EMPTY := World(Log(map[], map[], 0), Blobs(map[], map[]), map[], {}, map[], map[])

  function PutPart(ps: seq<Part>, p: Part): seq<Part> {
    if ps == [] then [p] else if ps[0].number == p.number then [p] + ps[1..] else [ps[0]] + PutPart(ps[1..], p)
  }

  function StepProc(cfg: Config, w: World, pid: nat, port: Port, now: int): World
    requires pid in w.procs && w.procs[pid].upload in cfg.commands
  {
    var p := w.procs[pid];
    var c := cfg.commands[p.upload];
    w.(log := NextLog(c, p.ask, p.pc, w.log, port, now),
       blobs := NextBlobs(c, p.pc, w.blobs, port),
       records := NextRecords(p.pc, w.records, port, now),
       procs := w.procs[pid := p.(pc := NextPc(cfg, c, p.ask, p.last, p.pc, w.log, w.blobs, w.records, port, now))])
  }

  function Next(cfg: Config, w: World, a: Action): World {
    match a
    case Steps(pid, port, now) =>
      if pid in w.procs && w.procs[pid].upload in cfg.commands then StepProc(cfg, w, pid, port, now) else w
    case Delivers(pid, u, ask, last) =>
      if pid in w.procs || u !in w.begun || u !in cfg.commands then w
      else w.(procs := w.procs[pid := Proc(u, ask, last, LoadRecord)])
    case Crashes(pid) => w.(procs := w.procs - {pid})
    case Preflights(u, pre, now) =>
      if u in w.begun || u !in cfg.commands || OwnKey(pre) != Record(cfg.commands[u]) then w
      else
        var c := cfg.commands[u];
        w.(begun := w.begun + {u}, blobs := w.blobs.(multiparts := w.blobs.multiparts[Multipart(c) := []]),
           records := CreateRecord(w.records, UploadState(pre, Uploading, now)))
    case UploadsPart(u, part) =>
      if u !in cfg.commands || Multipart(cfg.commands[u]) !in w.blobs.multiparts then w
      else
        var m := Multipart(cfg.commands[u]);
        w.(blobs := w.blobs.(multiparts := w.blobs.multiparts[m := PutPart(w.blobs.multiparts[m], part)]))
    case Reaps(u) => if u in cfg.commands then w.(blobs := Abort(w.blobs, Multipart(cfg.commands[u]))) else w
    case Expires(u) => if u in cfg.commands then w.(records := w.records - {Record(cfg.commands[u])}) else w
    case Forgets(u) =>
      if u !in cfg.commands then w
      else
        var c := cfg.commands[u];
        w.(log := w.log.(seen := w.log.seen - {SeenKey(DocKey(c), EventIdOf(c))}))
    case Completes(pid, u) =>
      if pid in w.api || u !in cfg.commands then w
      else w.(api := w.api[pid := ApiCall(u, Transition.Reading(0))])
    case ApiSteps(pid, port, now) =>
      if pid !in w.api || w.api[pid].upload !in cfg.commands then w
      else
        var x := w.api[pid];
        var next := Transition.CallNext(w.records, Record(cfg.commands[x.upload]), Scanning, now, x.call, port);
        w.(records := Transition.CallRecords(w.records, Scanning, now, x.call, port),
           api := w.api[pid := x.(call := next)])
  }

  function Run(cfg: Config, acts: seq<Action>): World {
    if acts == [] then EMPTY else Next(cfg, Run(cfg, acts[..|acts| - 1]), acts[|acts| - 1])
  }

  /** `n` working calls of one delivery. */
  function Calls(pid: nat, now: int, n: nat): seq<Action> {
    seq(n, _ => Steps(pid, Works, now))
  }

  /** The state that actions lead to from a given one. */
  function Play(cfg: Config, w: World, acts: seq<Action>): World {
    if acts == [] then w else Next(cfg, Play(cfg, w, acts[..|acts| - 1]), acts[|acts| - 1])
  }

  lemma PlayCall(cfg: Config, w: World, pid: nat, now: int, n: nat)
    ensures Play(cfg, w, Calls(pid, now, n + 1)) == Next(cfg, Play(cfg, w, Calls(pid, now, n)), Steps(pid, Works, now))
    ensures Play(cfg, w, Calls(pid, now, 0)) == w
  {
    assert Calls(pid, now, n + 1)[..n] == Calls(pid, now, n);
  }

  lemma {:induction false} PlayCalls(cfg: Config, w: World, pid: nat, now: int, m: nat, n: nat)
    ensures Play(cfg, w, Calls(pid, now, m + n)) == Play(cfg, Play(cfg, w, Calls(pid, now, m)), Calls(pid, now, n))
  {
    if n > 0 {
      PlayCalls(cfg, w, pid, now, m, n - 1);
      PlayCall(cfg, w, pid, now, m + n - 1);
      PlayCall(cfg, Play(cfg, w, Calls(pid, now, m)), pid, now, n - 1);
    }
  }
}
