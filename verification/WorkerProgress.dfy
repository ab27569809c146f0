/** What a delivery does when its calls work and nobody interferes: a verified upload is accepted, a conflict that the
    request does not want is refused, and a rejected upload is given back, with the answer, the record, the log and the
    bytes each says. */
module WorkerProgress {
  import opened Wrappers
  import opened Domain
  import opened Fold
  import opened Subject
  import opened EventStore
  import opened UploadRecord
  import opened BlobStore
  import opened Worker
  import opened WorkerLog
  import Transition

  // ------------------------------------------------------------------ parts

  /** A part replaces the one of its number, or joins the others. */
  lemma {:induction false} PutPartIs(ps: seq<Part>, p: Part)
    requires DistinctNumbers(ps)
    ensures DistinctNumbers(PutPart(ps, p))
    ensures forall q :: q in PutPart(ps, p) <==> q == p || (q in ps && q.number != p.number)
  {
    if ps != [] {
      var rest := ps[1..];
      assert ps == [ps[0]] + rest;
      if ps[0].number == p.number {
        assert forall q :: q in rest ==> q.number != p.number;
        ConsDistinct(p, rest);
      } else {
        PutPartIs(rest, p);
        assert forall q :: q in PutPart(rest, p) ==> q.number != ps[0].number;
        ConsDistinct(ps[0], PutPart(rest, p));
      }
    }
  }

  lemma ConsDistinct(p: Part, rest: seq<Part>)
    requires DistinctNumbers(rest) && forall q <- rest :: q.number != p.number
    ensures DistinctNumbers([p] + rest)
  {
  }

  ghost predicate PartsDistinct(b: Blobs) {
    forall m :: m in b.multiparts ==> DistinctNumbers(b.multiparts[m])
  }

  /** Every reachable listing has one part a number. */
  lemma {:induction false} RunPartsDistinct(cfg: Config, acts: seq<Action>)
    ensures PartsDistinct(Run(cfg, acts).blobs)
  {
    if acts != [] {
      var n := |acts| - 1;
      RunPartsDistinct(cfg, acts[..n]);
      StepPartsDistinct(cfg, Run(cfg, acts[..n]), acts[n]);
    }
  }

  lemma StepPartsDistinct(cfg: Config, w: World, a: Action)
    requires PartsDistinct(w.blobs)
    ensures PartsDistinct(Next(cfg, w, a).blobs)
  {
    if a.UploadsPart? && a.u in cfg.commands && Multipart(cfg.commands[a.u]) in w.blobs.multiparts {
      PutPartIs(w.blobs.multiparts[Multipart(cfg.commands[a.u])], a.part);
    }
  }

  // ------------------------------------------------------------------ one call

  function SetPc(w: World, pid: nat, pc: Pc): World
    requires pid in w.procs
  {
    w.(procs := w.procs[pid := w.procs[pid].(pc := pc)])
  }

  lemma SetTwice(w: World, pid: nat, a: Pc, b: Pc)
    requires pid in w.procs
    ensures SetPc(SetPc(w, pid, a), pid, b) == SetPc(w, pid, b)
  {
  }

  /** The delivery is at `pc`, working for `c`. */
  predicate Stands(cfg: Config, w: World, pid: nat, c: Command, pc: Pc) {
    pid in w.procs && CommandOf(cfg, w.procs[pid].upload, c) && w.procs[pid].pc == pc
  }

  /** The record lives and has no final answer yet. */
  predicate Recorded(w: World, c: Command) {
    LoadedStatus(w.records, c).Some? && !IsTerminal(LoadedStatus(w.records, c).value)
  }

  lemma VerifyCall(cfg: Config, w: World, pid: nat, now: int, c: Command, pc: Pc, next: Pc)
    requires Stands(cfg, w, pid, c, pc) && Verifying(pc) && !pc.Assemble?
    requires next == VerifyNext(cfg, c, w.procs[pid].last, pc, w.blobs, Works)
    ensures Next(cfg, w, Steps(pid, Works, now)) == SetPc(w, pid, next)
  {
    assert NextBlobs(c, pc, w.blobs, Works) == w.blobs;
    assert NextLog(c, w.procs[pid].ask, pc, w.log, Works, now) == w.log;
  }

  /** One working call of a verifying delivery moves it and nothing else. */
  lemma OneCall(cfg: Config, w: World, pid: nat, now: int, k: nat, c: Command, pc: Pc, next: Pc)
    requires pid in w.procs && CommandOf(cfg, w.procs[pid].upload, c)
    requires Play(cfg, w, Calls(pid, now, k)) == SetPc(w, pid, pc)
    requires Verifying(pc) && !pc.Assemble? && next == VerifyNext(cfg, c, w.procs[pid].last, pc, w.blobs, Works)
    ensures Play(cfg, w, Calls(pid, now, k + 1)) == SetPc(w, pid, next)
  {
    PlayCall(cfg, w, pid, now, k);
    VerifyCall(cfg, SetPc(w, pid, pc), pid, now, c, pc, next);
    SetTwice(w, pid, pc, next);
  }

  // ------------------------------------------------------------------ to the assembled object

  /** The open multipart holds these parts, which make up these bytes. */
  predicate Uploaded(b: Blobs, c: Command, parts: seq<Part>, bytes: Bytes) {
    && Multipart(c) in b.multiparts && b.multiparts[Multipart(c)] == parts
    && parts != [] && DistinctNumbers(parts) && bytes == Concatenated(SortParts(parts))
  }

  function Joined(b: Blobs, c: Command, bytes: Bytes): Blobs {
    Blobs(b.multiparts - {Multipart(c)}, b.objects[Object(c) := bytes])
  }

  lemma LoadsRecord(cfg: Config, w: World, pid: nat, now: int, c: Command)
    requires Stands(cfg, w, pid, c, LoadRecord) && Recorded(w, c)
    ensures Play(cfg, w, Calls(pid, now, 1)) == SetPc(w, pid, ListParts)
  {
    PlayCall(cfg, w, pid, now, 0);
  }

  lemma AssembleCall(cfg: Config, w: World, pid: nat, now: int, c: Command, parts: seq<Part>, bytes: Bytes)
    requires Uploaded(w.blobs, c, parts, bytes) && Stands(cfg, w, pid, c, Assemble(Completed(SortParts(parts))))
    ensures Next(cfg, w, Steps(pid, Works, now)) == SetPc(w.(blobs := Joined(w.blobs, c, bytes)), pid, Head)
  {
    OwnListingAssembles(parts);
  }

  /** Reading the record, listing the parts and assembling them. */
  lemma ToHead(cfg: Config, w: World, pid: nat, now: int, c: Command, parts: seq<Part>, bytes: Bytes, n: World)
    requires Stands(cfg, w, pid, c, LoadRecord) && Recorded(w, c) && Uploaded(w.blobs, c, parts, bytes)
    requires n == w.(blobs := Joined(w.blobs, c, bytes))
    ensures Play(cfg, w, Calls(pid, now, 3)) == SetPc(n, pid, Head)
  {
    var pc := Assemble(Completed(SortParts(parts)));
    LoadsRecord(cfg, w, pid, now, c);
    OneCall(cfg, w, pid, now, 1, c, ListParts, pc);
    PlayCall(cfg, w, pid, now, 2);
    AssembleCall(cfg, SetPc(w, pid, pc), pid, now, c, parts, bytes);
    SetTwice(n, pid, pc, Head);
  }

  /** The same for a delivery that finds the multipart gone. */
  lemma BackToHead(cfg: Config, w: World, pid: nat, now: int, c: Command)
    requires Stands(cfg, w, pid, c, LoadRecord) && Recorded(w, c) && Multipart(c) !in w.blobs.multiparts
    ensures Play(cfg, w, Calls(pid, now, 2)) == SetPc(w, pid, Head)
  {
    LoadsRecord(cfg, w, pid, now, c);
    OneCall(cfg, w, pid, now, 1, c, ListParts, Head);
  }

  // ------------------------------------------------------------------ to the log

  /** The bytes have the declared size, the validator accepts them and the scanner finds nothing. */
  predicate Passes(cfg: Config, c: Command, bytes: Bytes) {
    |bytes| == c.declaredSize && cfg.verify.accepts(|bytes|, Prefix(bytes), c) && cfg.verify.clean(bytes)
  }

  predicate ObjectIs(b: Blobs, c: Command, bytes: Bytes) {
    Object(c) in b.objects && b.objects[Object(c)] == bytes
  }

  /** Where verification leads, by mode. */
  function Cleared(c: Command, checksum: string): Pc {
    if c.mode.Create? then AppendCreate(checksum) else ReadHistory(checksum)
  }

  lemma Validates(cfg: Config, w: World, pid: nat, now: int, c: Command, bytes: Bytes, size: nat, prefix: Bytes)
    requires Stands(cfg, w, pid, c, Head) && Passes(cfg, c, bytes) && ObjectIs(w.blobs, c, bytes)
    requires size == |bytes| && prefix == Prefix(bytes) && Play(cfg, w, Calls(pid, now, 0)) == SetPc(w, pid, Head)
    ensures Play(cfg, w, Calls(pid, now, 3)) == SetPc(w, pid, OpenRead)
  {
    OneCall(cfg, w, pid, now, 0, c, Head, ReadPrefix(size));
    OneCall(cfg, w, pid, now, 1, c, ReadPrefix(size), Validate(size, prefix));
    OneCall(cfg, w, pid, now, 2, c, Validate(size, prefix), OpenRead);
  }

  lemma Scans(cfg: Config, w: World, pid: nat, now: int, c: Command, bytes: Bytes)
    requires Stands(cfg, w, pid, c, Head) && Passes(cfg, c, bytes) && ObjectIs(w.blobs, c, bytes)
    requires Play(cfg, w, Calls(pid, now, 3)) == SetPc(w, pid, OpenRead)
    ensures Play(cfg, w, Calls(pid, now, 5)) == SetPc(w, pid, Cleared(c, Checksum(cfg, bytes)))
  {
    OneCall(cfg, w, pid, now, 3, c, OpenRead, Scan(bytes));
    ScanClears(cfg, c, bytes, w.procs[pid].last, w.blobs);
    OneCall(cfg, w, pid, now, 4, c, Scan(bytes), Cleared(c, Checksum(cfg, bytes)));
  }

  lemma ScanClears(cfg: Config, c: Command, bytes: Bytes, last: bool, b: Blobs)
    requires Passes(cfg, c, bytes)
    ensures VerifyNext(cfg, c, last, Scan(bytes), b, Works) == Cleared(c, Checksum(cfg, bytes))
  {
  }

  /** Verifying the assembled object. */
  lemma Clears(cfg: Config, w: World, pid: nat, now: int, c: Command, bytes: Bytes)
    requires Stands(cfg, w, pid, c, Head) && Passes(cfg, c, bytes) && ObjectIs(w.blobs, c, bytes)
    ensures Play(cfg, w, Calls(pid, now, 5)) == SetPc(w, pid, Cleared(c, Checksum(cfg, bytes)))
  {
    PlayCall(cfg, w, pid, now, 0);
    assert SetPc(w, pid, Head) == w;
    Validates(cfg, w, pid, now, c, bytes, |bytes|, Prefix(bytes));
    Scans(cfg, w, pid, now, c, bytes);
  }

  /** Any listing whose parts make up bytes that pass verification is assembled, in ascending order of part number, and
      cleared for the log by eight working calls, in either mode; nothing else changes. */
  lemma AnyListingClears(cfg: Config, w: World, pid: nat, now: int, c: Command, parts: seq<Part>, bytes: Bytes)
    requires Stands(cfg, w, pid, c, LoadRecord) && Recorded(w, c)
    requires Uploaded(w.blobs, c, parts, bytes) && Passes(cfg, c, bytes)
    ensures Play(cfg, w, Calls(pid, now, 8))
            == SetPc(w.(blobs := Joined(w.blobs, c, bytes)), pid, Cleared(c, Checksum(cfg, bytes)))
  {
    var n := w.(blobs := Joined(w.blobs, c, bytes));
    PlayCalls(cfg, w, pid, now, 3, 5);
    ToHead(cfg, w, pid, now, c, parts, bytes, n);
    Clears(cfg, SetPc(n, pid, Head), pid, now, c, bytes);
    SetTwice(n, pid, Head, Cleared(c, Checksum(cfg, bytes)));
  }

  /** An upload assembled earlier is cleared by seven. */
  lemma AssembledUploadClears(cfg: Config, w: World, pid: nat, now: int, c: Command, bytes: Bytes)
    requires Stands(cfg, w, pid, c, LoadRecord) && Recorded(w, c)
    requires Multipart(c) !in w.blobs.multiparts && ObjectIs(w.blobs, c, bytes) && Passes(cfg, c, bytes)
    ensures Play(cfg, w, Calls(pid, now, 7)) == SetPc(w, pid, Cleared(c, Checksum(cfg, bytes)))
  {
    PlayCalls(cfg, w, pid, now, 2, 5);
    BackToHead(cfg, w, pid, now, c);
    Clears(cfg, SetPc(w, pid, Head), pid, now, c, bytes);
    SetTwice(w, pid, Head, Cleared(c, Checksum(cfg, bytes)));
  }

  // ------------------------------------------------------------------ recording the answer

  /** The record with its new status, stamped. */
  function Marked(rs: Records, c: Command, status: UploadStatus, now: int): Records
    requires Record(c) in rs
  {
    var r := rs[Record(c)];
    rs[Record(c) := UploadRecord.Stored(UploadState(r.state.pre, status, now), r.revision + 1)]
  }

  /** What an answer says: the document, the version and the flag, or the reason. */
  predicate Answers(outcome: FinishOutcome, c: Command, status: UploadStatus) {
    match status
    case Accepted(version, superseded) => outcome == AcceptedOutcome(c.documentId, version, superseded)
    case Rejected(reason) => outcome == RejectedOutcome(reason)
    case _ => outcome == RetryOutcome
  }

  lemma RecordReads(cfg: Config, w: World, pid: nat, now: int, c: Command, status: UploadStatus, m: World)
    requires Stands(cfg, w, pid, c, Recording(status, Transition.Reading(0))) && Recorded(w, c)
    requires m == SetPc(w, pid, Recording(status, Transition.Swapping(0, w.records[Record(c)])))
    ensures Next(cfg, w, Steps(pid, Works, now)) == m
  {
  }

  lemma RecordSwaps(cfg: Config, w: World, pid: nat, now: int, c: Command, status: UploadStatus, pc: Pc, n: World)
    requires Record(c) in w.records && pc == Recording(status, Transition.Swapping(0, w.records[Record(c)]))
    requires Stands(cfg, w, pid, c, pc) && OwnKey(w.records[Record(c)].state.pre) == Record(c)
    requires n == Next(cfg, w, Steps(pid, Works, now))
    ensures n.records == Marked(w.records, c, status, now) && n.log == w.log && n.blobs == w.blobs
    ensures Stands(cfg, n, pid, c, n.procs[pid].pc) && n.procs[pid].pc.Done? && !n.procs[pid].pc.expired
    ensures Answers(n.procs[pid].pc.outcome, c, status)
  {
  }

  /** Two calls record an answer and give it. */
  lemma Records2(cfg: Config, w: World, pid: nat, now: int, c: Command, status: UploadStatus, n: World)
    requires Stands(cfg, w, pid, c, Recording(status, Transition.Reading(0))) && Recorded(w, c)
    requires OwnKey(w.records[Record(c)].state.pre) == Record(c) && n == Play(cfg, w, Calls(pid, now, 2))
    ensures n.records == Marked(w.records, c, status, now) && n.log == w.log && n.blobs == w.blobs
    ensures pid in n.procs && n.procs[pid].pc.Done? && !n.procs[pid].pc.expired
    ensures Answers(n.procs[pid].pc.outcome, c, status)
  {
    var pc := Recording(status, Transition.Swapping(0, w.records[Record(c)]));
    var m := SetPc(w, pid, pc);
    PlayCall(cfg, w, pid, now, 0);
    PlayCall(cfg, w, pid, now, 1);
    RecordReads(cfg, w, pid, now, c, status, m);
    RecordSwaps(cfg, m, pid, now, c, status, pc, n);
  }

  /** A delivery that finds a final answer repeats it, and touches nothing. */
  lemma RepeatsRecorded(cfg: Config, w: World, pid: nat, now: int, c: Command, status: UploadStatus, n: World)
    requires Stands(cfg, w, pid, c, LoadRecord) && LoadedStatus(w.records, c) == Some(status) && IsTerminal(status)
    requires n == Next(cfg, w, Steps(pid, Works, now))
    ensures n.log == w.log && n.blobs == w.blobs && n.records == w.records
    ensures n.procs[pid].pc.Done? && !n.procs[pid].pc.expired && Answers(n.procs[pid].pc.outcome, c, status)
  {
  }

  // ------------------------------------------------------------------ a create

  /** The answer is given and recorded. */
  predicate Finished(w: World, n: World, pid: nat, c: Command, status: UploadStatus, now: int) {
    && Record(c) in w.records && n.records == Marked(w.records, c, status, now)
    && pid in n.procs && n.procs[pid].pc.Done? && !n.procs[pid].pc.expired
    && Answers(n.procs[pid].pc.outcome, c, status)
  }

  /** What a logged event says of its upload and of the request behind it. */
  predicate Tells(cfg: Config, e: DocumentEvent, c: Command, ask: Ask, bytes: Bytes, version: nat, now: int) {
    && e.tenantId == c.tenantId && e.documentId == c.documentId && e.actor == User(c.ownerUserId)
    && e.version == version && e.ts == now
    && var facts := BlobFacts(c.uploadId, c.filename, c.contentType, |bytes|, "sha256:" + cfg.verify.digest(bytes));
       if c.mode.Create?
       then e.eventId == CreatedId(c.tenantId, c.uploadId) && e.payload == DocumentCreated(facts, ask.patch)
       else
         && e.eventId == BlobValidatedId(c.tenantId, c.uploadId)
         && e.payload == DocumentBlobValidated(facts, ask.patch, ask.ifMatch)
  }

  lemma CreateLands(cfg: Config, w: World, pid: nat, now: int, c: Command, bytes: Bytes, n: World)
    requires FreshIds(cfg) && LogOk(cfg, w.log) && c.mode.Create? && Stream(w.log, DocKey(c)) == []
    requires Stands(cfg, w, pid, c, AppendCreate(Checksum(cfg, bytes))) && |bytes| == c.declaredSize
    requires n == Next(cfg, w, Steps(pid, Works, now))
    ensures Stands(cfg, n, pid, c, Recording(Accepted(1, false), Transition.Reading(0)))
    ensures n.blobs == w.blobs && n.records == w.records
    ensures var xs := Stream(n.log, DocKey(c));
            |xs| == 1 && Tells(cfg, xs[0].event, c, w.procs[pid].ask, bytes, 1, now)
  {
    var e := CreateEvent(c, w.procs[pid].ask, w.procs[pid].pc, now);
    NotRemembered(cfg, w.log, c);
    assert Lands(w.log, e, CreateOnly);
    assert n.log == Publish(w.log, e, CreateOnly);
  }

  /** Theorem: a verified create of a document without events is accepted by eleven working calls as version 1, not
      superseded: its event, its bytes and its record say so. */
  lemma CreateIsAccepted(cfg: Config, w: World, pid: nat, now: int, c: Command, parts: seq<Part>, bytes: Bytes,
                         n: World)
    requires FreshIds(cfg) && Inv(cfg, w) && c.mode.Create? && Stream(w.log, DocKey(c)) == []
    requires Stands(cfg, w, pid, c, LoadRecord) && Recorded(w, c)
    requires Uploaded(w.blobs, c, parts, bytes) && Passes(cfg, c, bytes)
    requires n == Play(cfg, w, Calls(pid, now, 11))
    ensures Finished(w, n, pid, c, Accepted(1, false), now) && n.blobs == Joined(w.blobs, c, bytes)
    ensures var xs := Stream(n.log, DocKey(c));
            |xs| == 1 && Tells(cfg, xs[0].event, c, w.procs[pid].ask, bytes, 1, now)
  {
    var r := SetPc(w.(blobs := Joined(w.blobs, c, bytes)), pid, AppendCreate(Checksum(cfg, bytes)));
    AnyListingClears(cfg, w, pid, now, c, parts, bytes);
    PlayCalls(cfg, w, pid, now, 8, 3);
    FinishCreate(cfg, r, pid, now, c, bytes, n);
  }

  lemma FinishCreate(cfg: Config, r: World, pid: nat, now: int, c: Command, bytes: Bytes, n: World)
    requires FreshIds(cfg) && LogOk(cfg, r.log) && c.mode.Create? && Stream(r.log, DocKey(c)) == []
    requires Stands(cfg, r, pid, c, AppendCreate(Checksum(cfg, bytes))) && |bytes| == c.declaredSize
    requires Recorded(r, c) && OwnKey(r.records[Record(c)].state.pre) == Record(c)
    requires n == Play(cfg, r, Calls(pid, now, 3))
    ensures Finished(r, n, pid, c, Accepted(1, false), now) && n.blobs == r.blobs
    ensures var xs := Stream(n.log, DocKey(c));
            |xs| == 1 && Tells(cfg, xs[0].event, c, r.procs[pid].ask, bytes, 1, now)
  {
    var m := Next(cfg, r, Steps(pid, Works, now));
    PlayCall(cfg, r, pid, now, 0);
    PlayCalls(cfg, r, pid, now, 1, 2);
    CreateLands(cfg, r, pid, now, c, bytes, m);
    Records2(cfg, m, pid, now, c, Accepted(1, false), n);
  }

  // ------------------------------------------------------------------ a replace

  /** The request insists on a version, and it is not the document's. */
  predicate Unwanted(ask: Ask, current: nat) {
    ask.onConflict.Fail? && ask.ifMatch.Some? && ask.ifMatch.value != current
  }

  lemma ReadsHistory(cfg: Config, w: World, pid: nat, now: int, c: Command, checksum: string, xs: seq<Entry>)
    requires LogOk(cfg, w.log) && c.mode.Replace? && xs == Stream(w.log, DocKey(c)) && xs != [] && !Logged(w.log, c)
    requires Stands(cfg, w, pid, c, ReadHistory(checksum))
    ensures Next(cfg, w, Steps(pid, Works, now))
            == SetPc(w, pid, if Unwanted(w.procs[pid].ask, |xs|) then AbortMultipart("version_conflict", true)
                             else LastForUpdate(checksum, now, 0))
  {
    FindBlobLogged(w.log, c);
    assert StreamOk(cfg, DocKey(c), xs, w.log.head);
    StreamFolds(cfg, DocKey(c), xs, w.log.head, |xs|);
    assert xs[..|xs|] == xs;
  }

  lemma ReadsTail(cfg: Config, w: World, pid: nat, now: int, c: Command, checksum: string, xs: seq<Entry>)
    requires LogOk(cfg, w.log) && xs == Stream(w.log, DocKey(c)) && xs != []
    requires Stands(cfg, w, pid, c, LastForUpdate(checksum, now, 0))
    ensures Next(cfg, w, Steps(pid, Works, now))
            == SetPc(w, pid, AppendUpdate(checksum, now, 0, |xs|, xs[|xs| - 1].seqNo))
  {
    assert StreamOk(cfg, DocKey(c), xs, w.log.head);
    assert EntryOk(cfg, DocKey(c), |xs| - 1, xs[|xs| - 1]);
  }

  /** An update at the tail of a document that does not have the upload lands behind it. */
  lemma UpdateLands(cfg: Config, log: Log, c: Command, ask: Ask, bytes: Bytes, now: int, pc: Pc, xs: seq<Entry>, l: Log)
    requires FreshIds(cfg) && LogOk(cfg, log) && CommandOf(cfg, c.uploadId, c) && c.mode.Replace? && !Logged(log, c)
    requires xs == Stream(log, DocKey(c)) && xs != [] && |bytes| == c.declaredSize
    requires pc == AppendUpdate(Checksum(cfg, bytes), now, 0, |xs|, xs[|xs| - 1].seqNo)
    requires l == Publish(log, UpdateEvent(c, ask, pc), Exactly(pc.seqNo))
    ensures PublishReply(log, UpdateEvent(c, ask, pc), Exactly(pc.seqNo))
            == Ok(Appended(log.head + 1, |xs| + 1, false))
    ensures var ys := Stream(l, DocKey(c));
            && |ys| == |xs| + 1 && ys[..|xs|] == xs
            && Tells(cfg, ys[|xs|].event, c, ask, bytes, |xs| + 1, now)
  {
    NotRemembered(cfg, log, c);
    PublishBehind(log, UpdateEvent(c, ask, pc), xs);
    UpdateTells(cfg, c, ask, bytes, now, pc, |xs|);
  }

  lemma UpdateCall(cfg: Config, w: World, pid: nat, now: int, c: Command, pc: Pc, e: DocumentEvent, n: World)
    requires Stands(cfg, w, pid, c, pc) && pc.AppendUpdate? && e == UpdateEvent(c, w.procs[pid].ask, pc)
    requires PublishReply(w.log, e, Exactly(pc.seqNo)) == Ok(Appended(w.log.head + 1, pc.version + 1, false))
    requires var ask := w.procs[pid].ask;
             var flag := ask.ifMatch.Some? && ask.ifMatch.value != pc.version;
             n == SetPc(w.(log := Publish(w.log, e, Exactly(pc.seqNo))), pid,
                        Recording(Accepted(pc.version + 1, flag), Transition.Reading(0)))
    ensures Play(cfg, w, Calls(pid, now, 1)) == n
  {
    PlayCall(cfg, w, pid, now, 0);
  }

  lemma UpdateTells(cfg: Config, c: Command, ask: Ask, bytes: Bytes, now: int, pc: Pc, n: nat)
    requires c.mode.Replace? && |bytes| == c.declaredSize
    requires pc.AppendUpdate? && pc.checksum == Checksum(cfg, bytes) && pc.ts == now && pc.version == n
    ensures Tells(cfg, UpdateEvent(c, ask, pc), c, ask, bytes, n + 1, now)
  {
  }

  lemma PublishBehind(log: Log, e: DocumentEvent, xs: seq<Entry>)
    requires xs == Stream(log, KeyOf(e)) && xs != [] && !Duplicate(log, e)
    ensures var x := Exactly(xs[|xs| - 1].seqNo);
            && PublishReply(log, e, x) == Ok(Appended(log.head + 1, e.version, false))
            && Stream(Publish(log, e, x), KeyOf(e)) == xs + [Entry(log.head + 1, e)]
  {
  }

  lemma NotRemembered(cfg: Config, log: Log, c: Command)
    requires FreshIds(cfg) && LogOk(cfg, log) && CommandOf(cfg, c.uploadId, c) && !Logged(log, c)
    ensures SeenKey(DocKey(c), EventIdOf(c)) !in log.seen
  {
    if SeenKey(DocKey(c), EventIdOf(c)) in log.seen {
      assert HasId(Stream(log, DocKey(c)), EventIdOf(c));
      IdNamesUpload(cfg, log, c);
    }
  }

  /** Theorem: a verified replace of a document with `n` events, not yet logged, is accepted by thirteen working
      calls as version `n + 1`, superseded exactly when the request named a version other than `n`; unless the
      request insists. */
  lemma ReplaceIsAccepted(cfg: Config, w: World, pid: nat, now: int, c: Command, parts: seq<Part>, bytes: Bytes,
                          xs: seq<Entry>, n: World)
    requires FreshIds(cfg) && Inv(cfg, w) && c.mode.Replace? && !Logged(w.log, c)
    requires xs == Stream(w.log, DocKey(c)) && xs != []
    requires Stands(cfg, w, pid, c, LoadRecord) && Recorded(w, c) && !Unwanted(w.procs[pid].ask, |xs|)
    requires Uploaded(w.blobs, c, parts, bytes) && Passes(cfg, c, bytes)
    requires n == Play(cfg, w, Calls(pid, now, 13))
    ensures var ask := w.procs[pid].ask;
            Finished(w, n, pid, c, Accepted(|xs| + 1, ask.ifMatch.Some? && ask.ifMatch.value != |xs|), now)
    ensures n.blobs == Joined(w.blobs, c, bytes)
    ensures var ys := Stream(n.log, DocKey(c));
            && |ys| == |xs| + 1 && ys[..|xs|] == xs
            && Tells(cfg, ys[|xs|].event, c, w.procs[pid].ask, bytes, |xs| + 1, now)
  {
    var r := SetPc(w.(blobs := Joined(w.blobs, c, bytes)), pid, ReadHistory(Checksum(cfg, bytes)));
    AnyListingClears(cfg, w, pid, now, c, parts, bytes);
    PlayCalls(cfg, w, pid, now, 8, 5);
    FinishReplace(cfg, r, pid, now, c, bytes, xs, n);
  }

  lemma FinishReplace(cfg: Config, r: World, pid: nat, now: int, c: Command, bytes: Bytes, xs: seq<Entry>, n: World)
    requires FreshIds(cfg) && LogOk(cfg, r.log) && c.mode.Replace? && !Logged(r.log, c)
    requires xs == Stream(r.log, DocKey(c)) && xs != [] && |bytes| == c.declaredSize
    requires Stands(cfg, r, pid, c, ReadHistory(Checksum(cfg, bytes))) && !Unwanted(r.procs[pid].ask, |xs|)
    requires Recorded(r, c) && OwnKey(r.records[Record(c)].state.pre) == Record(c)
    requires n == Play(cfg, r, Calls(pid, now, 5))
    ensures var ask := r.procs[pid].ask;
            Finished(r, n, pid, c, Accepted(|xs| + 1, ask.ifMatch.Some? && ask.ifMatch.value != |xs|), now)
    ensures n.blobs == r.blobs
    ensures var ys := Stream(n.log, DocKey(c));
            && |ys| == |xs| + 1 && ys[..|xs|] == xs
            && Tells(cfg, ys[|xs|].event, c, r.procs[pid].ask, bytes, |xs| + 1, now)
  {
    var checksum := Checksum(cfg, bytes);
    var a := SetPc(r, pid, LastForUpdate(checksum, now, 0));
    var b := SetPc(a, pid, AppendUpdate(checksum, now, 0, |xs|, xs[|xs| - 1].seqNo));
    PlayCall(cfg, r, pid, now, 0);
    PlayCall(cfg, r, pid, now, 1);
    ReadsHistory(cfg, r, pid, now, c, checksum, xs);
    ReadsTail(cfg, a, pid, now, c, checksum, xs);
    PlayCalls(cfg, r, pid, now, 2, 3);
    FinishUpdate(cfg, b, pid, now, c, bytes, xs, n);
  }

  lemma FinishUpdate(cfg: Config, b: World, pid: nat, now: int, c: Command, bytes: Bytes, xs: seq<Entry>, n: World)
    requires FreshIds(cfg) && LogOk(cfg, b.log) && c.mode.Replace? && !Logged(b.log, c)
    requires xs == Stream(b.log, DocKey(c)) && xs != [] && |bytes| == c.declaredSize
    requires Stands(cfg, b, pid, c, AppendUpdate(Checksum(cfg, bytes), now, 0, |xs|, xs[|xs| - 1].seqNo))
    requires Recorded(b, c) && OwnKey(b.records[Record(c)].state.pre) == Record(c)
    requires n == Play(cfg, b, Calls(pid, now, 3))
    ensures var ask := b.procs[pid].ask;
            Finished(b, n, pid, c, Accepted(|xs| + 1, ask.ifMatch.Some? && ask.ifMatch.value != |xs|), now)
    ensures n.blobs == b.blobs
    ensures var ys := Stream(n.log, DocKey(c));
            && |ys| == |xs| + 1 && ys[..|xs|] == xs
            && Tells(cfg, ys[|xs|].event, c, b.procs[pid].ask, bytes, |xs| + 1, now)
  {
    var ask := b.procs[pid].ask;
    var m := UpdateStep(cfg, b, pid, now, c, bytes, xs, ask);
    PlayCalls(cfg, b, pid, now, 1, 2);
    Records2(cfg, m, pid, now, c, Accepted(|xs| + 1, ask.ifMatch.Some? && ask.ifMatch.value != |xs|), n);
  }

  lemma UpdateStep(cfg: Config, b: World, pid: nat, now: int, c: Command, bytes: Bytes, xs: seq<Entry>, ask: Ask)
    returns (m: World)
    requires FreshIds(cfg) && LogOk(cfg, b.log) && c.mode.Replace? && !Logged(b.log, c)
    requires xs == Stream(b.log, DocKey(c)) && xs != [] && |bytes| == c.declaredSize
    requires Stands(cfg, b, pid, c, AppendUpdate(Checksum(cfg, bytes), now, 0, |xs|, xs[|xs| - 1].seqNo))
    requires ask == b.procs[pid].ask
    ensures Play(cfg, b, Calls(pid, now, 1)) == m && m.records == b.records && m.blobs == b.blobs
    ensures var flag := ask.ifMatch.Some? && ask.ifMatch.value != |xs|;
            Stands(cfg, m, pid, c, Recording(Accepted(|xs| + 1, flag), Transition.Reading(0)))
    ensures var ys := Stream(m.log, DocKey(c));
            && |ys| == |xs| + 1 && ys[..|xs|] == xs
            && Tells(cfg, ys[|xs|].event, c, ask, bytes, |xs| + 1, now)
  {
    var pc := b.procs[pid].pc;
    var flag := ask.ifMatch.Some? && ask.ifMatch.value != |xs|;
    var e := UpdateEvent(c, ask, pc);
    var l := Publish(b.log, e, Exactly(pc.seqNo));
    m := SetPc(b.(log := l), pid, Recording(Accepted(|xs| + 1, flag), Transition.Reading(0)));
    UpdateLands(cfg, b.log, c, ask, bytes, now, pc, xs, l);
    UpdateCall(cfg, b, pid, now, c, pc, e, m);
  }

  // ------------------------------------------------------------------ giving back

  function Gone(b: Blobs, c: Command): Blobs {
    Blobs(b.multiparts - {Multipart(c)}, b.objects - {Object(c)})
  }

  /** Two calls give the parts and the object back, whatever the reason. */
  lemma GivesAllBack(cfg: Config, w: World, pid: nat, now: int, c: Command, reason: string, recorded: bool)
    requires Stands(cfg, w, pid, c, AbortMultipart(reason, recorded))
    ensures Play(cfg, w, Calls(pid, now, 2))
            == SetPc(w.(blobs := Gone(w.blobs, c)), pid,
                     if recorded then Recording(Rejected(reason), Transition.Reading(0))
                     else Done(RejectedOutcome(reason), true))
  {
    PlayCall(cfg, w, pid, now, 0);
    PlayCall(cfg, w, pid, now, 1);
    var m := SetPc(w.(blobs := Abort(w.blobs, Multipart(c))), pid, DeleteObject(reason, recorded));
    AbortCall(cfg, w, pid, now, c, reason, recorded, m);
    DeleteCall(cfg, m, pid, now, c, reason, recorded);
    SetTwice(w.(blobs := Gone(w.blobs, c)), pid, DeleteObject(reason, recorded), AfterDelete(reason, recorded));
  }

  function AfterDelete(reason: string, recorded: bool): Pc {
    if recorded then Recording(Rejected(reason), Transition.Reading(0)) else Done(RejectedOutcome(reason), true)
  }

  lemma AbortCall(cfg: Config, w: World, pid: nat, now: int, c: Command, reason: string, recorded: bool, m: World)
    requires Stands(cfg, w, pid, c, AbortMultipart(reason, recorded))
    requires m == SetPc(w.(blobs := Abort(w.blobs, Multipart(c))), pid, DeleteObject(reason, recorded))
    ensures Next(cfg, w, Steps(pid, Works, now)) == m
  {
  }

  lemma DeleteCall(cfg: Config, m: World, pid: nat, now: int, c: Command, reason: string, recorded: bool)
    requires Stands(cfg, m, pid, c, DeleteObject(reason, recorded))
    ensures Next(cfg, m, Steps(pid, Works, now))
            == SetPc(m.(blobs := Delete(m.blobs, Object(c))), pid, AfterDelete(reason, recorded))
  {
  }

  /** Theorem: four working calls finish a rejection: the bytes are gone, the log is as it was, and the record and
      the answer give the reason. */
  lemma RejectionIsFinished(cfg: Config, w: World, pid: nat, now: int, c: Command, reason: string, n: World)
    requires Inv(cfg, w) && Stands(cfg, w, pid, c, AbortMultipart(reason, true)) && Recorded(w, c)
    requires n == Play(cfg, w, Calls(pid, now, 4))
    ensures Finished(w, n, pid, c, Rejected(reason), now) && n.log == w.log && n.blobs == Gone(w.blobs, c)
  {
    PlayCalls(cfg, w, pid, now, 2, 2);
    GivesAllBack(cfg, w, pid, now, c, reason, true);
    var m := SetPc(w.(blobs := Gone(w.blobs, c)), pid, Recording(Rejected(reason), Transition.Reading(0)));
    Records2(cfg, m, pid, now, c, Rejected(reason), n);
  }

  /** Theorem: a replace whose request insists on another version is refused by thirteen working calls, its bytes are
      given back and nothing is logged. */
  lemma UnwantedIsRefused(cfg: Config, w: World, pid: nat, now: int, c: Command, parts: seq<Part>, bytes: Bytes,
                          xs: seq<Entry>, n: World)
    requires FreshIds(cfg) && Inv(cfg, w) && c.mode.Replace? && !Logged(w.log, c)
    requires xs == Stream(w.log, DocKey(c)) && xs != []
    requires Stands(cfg, w, pid, c, LoadRecord) && Recorded(w, c) && Unwanted(w.procs[pid].ask, |xs|)
    requires Uploaded(w.blobs, c, parts, bytes) && Passes(cfg, c, bytes)
    requires n == Play(cfg, w, Calls(pid, now, 13))
    ensures Finished(w, n, pid, c, Rejected("version_conflict"), now) && n.log == w.log && n.blobs == Gone(w.blobs, c)
  {
    var checksum := Checksum(cfg, bytes);
    var j := w.(blobs := Joined(w.blobs, c, bytes));
    var r := SetPc(j, pid, ReadHistory(checksum));
    AnyListingClears(cfg, w, pid, now, c, parts, bytes);
    PlayCalls(cfg, w, pid, now, 8, 5);
    RefusesUnwanted(cfg, r, pid, now, c, checksum, xs, n);
    assert Gone(r.blobs, c) == Gone(w.blobs, c);
  }

  lemma RefusesUnwanted(cfg: Config, r: World, pid: nat, now: int, c: Command, checksum: string, xs: seq<Entry>,
                        n: World)
    requires LogOk(cfg, r.log) && c.mode.Replace? && xs == Stream(r.log, DocKey(c)) && xs != [] && !Logged(r.log, c)
    requires Stands(cfg, r, pid, c, ReadHistory(checksum)) && Unwanted(r.procs[pid].ask, |xs|)
    requires Recorded(r, c) && OwnKey(r.records[Record(c)].state.pre) == Record(c)
    requires n == Play(cfg, r, Calls(pid, now, 5))
    ensures Finished(r, n, pid, c, Rejected("version_conflict"), now) && n.log == r.log && n.blobs == Gone(r.blobs, c)
  {
    var a := SetPc(r, pid, AbortMultipart("version_conflict", true));
    PlayCall(cfg, r, pid, now, 0);
    PlayCalls(cfg, r, pid, now, 1, 4);
    ReadsHistory(cfg, r, pid, now, c, checksum, xs);
    PlayCalls(cfg, a, pid, now, 2, 2);
    GivesAllBack(cfg, a, pid, now, c, "version_conflict", true);
    var m := SetPc(a.(blobs := Gone(a.blobs, c)), pid, Recording(Rejected("version_conflict"), Transition.Reading(0)));
    Records2(cfg, m, pid, now, c, Rejected("version_conflict"), n);
  }

  // ------------------------------------------------------------------ redeliveries

  /** However a record write goes, the delivery keeps trying or gives the answer it wanted recorded. */
  lemma RecordingAnswers(cfg: Config, w: World, pid: nat, port: Port, now: int, c: Command, pc: Pc, n: World)
    requires Stands(cfg, w, pid, c, pc) && pc.Recording? && n == Next(cfg, w, Steps(pid, port, now))
    ensures n.log == w.log && n.blobs == w.blobs
    ensures var next := n.procs[pid].pc;
            || (next.Recording? && next.status == pc.status)
            || (next.Done? && !next.expired && Answers(next.outcome, c, pc.status))
  {
  }

  lemma CreateMeetsItself(cfg: Config, w: World, pid: nat, now: int, c: Command, checksum: string, xs: seq<Entry>)
    requires LogOk(cfg, w.log) && c.mode.Create? && xs == Stream(w.log, DocKey(c)) && xs != []
    requires Stands(cfg, w, pid, c, AppendCreate(checksum))
    ensures Next(cfg, w, Steps(pid, Works, now)) == SetPc(w, pid, LastAfterCreate)
  {
    assert StreamOk(cfg, DocKey(c), xs, w.log.head);
  }

  lemma TailIsAccepted(cfg: Config, w: World, pid: nat, now: int, c: Command, xs: seq<Entry>)
    requires LogOk(cfg, w.log) && xs == Stream(w.log, DocKey(c)) && xs != []
    requires pid in w.procs && CommandOf(cfg, w.procs[pid].upload, c)
    requires w.procs[pid].pc.LastAfterCreate? || w.procs[pid].pc.LastAfterDuplicate?
    ensures var ask := w.procs[pid].ask;
            var flag := w.procs[pid].pc.LastAfterDuplicate? && ask.ifMatch.Some? && ask.ifMatch.value != |xs| - 1;
            Next(cfg, w, Steps(pid, Works, now))
            == SetPc(w, pid, Recording(Accepted(|xs|, flag), Transition.Reading(0)))
  {
    assert StreamOk(cfg, DocKey(c), xs, w.log.head);
    assert EntryOk(cfg, DocKey(c), |xs| - 1, xs[|xs| - 1]);
  }

  /** Theorem: a create that comes back after its document was created, with no final answer recorded, is accepted by
      eleven working calls without a second event; the version it reports is the document's newest. */
  lemma CreateAgainIsAccepted(cfg: Config, w: World, pid: nat, now: int, c: Command, bytes: Bytes, xs: seq<Entry>,
                              n: World)
    requires Inv(cfg, w) && c.mode.Create? && xs == Stream(w.log, DocKey(c)) && xs != []
    requires Stands(cfg, w, pid, c, LoadRecord) && Recorded(w, c) && Multipart(c) !in w.blobs.multiparts
    requires ObjectIs(w.blobs, c, bytes) && Passes(cfg, c, bytes) && n == Play(cfg, w, Calls(pid, now, 11))
    ensures Finished(w, n, pid, c, Accepted(|xs|, false), now) && n.log == w.log && n.blobs == w.blobs
  {
    var a := SetPc(w, pid, AppendCreate(Checksum(cfg, bytes)));
    AssembledUploadClears(cfg, w, pid, now, c, bytes);
    PlayCalls(cfg, w, pid, now, 7, 4);
    FinishAgain(cfg, a, pid, now, c, Checksum(cfg, bytes), xs, n);
  }

  lemma FinishAgain(cfg: Config, a: World, pid: nat, now: int, c: Command, checksum: string, xs: seq<Entry>, n: World)
    requires LogOk(cfg, a.log) && c.mode.Create? && xs == Stream(a.log, DocKey(c)) && xs != []
    requires Stands(cfg, a, pid, c, AppendCreate(checksum))
    requires Recorded(a, c) && OwnKey(a.records[Record(c)].state.pre) == Record(c)
    requires n == Play(cfg, a, Calls(pid, now, 4))
    ensures Finished(a, n, pid, c, Accepted(|xs|, false), now) && n.log == a.log && n.blobs == a.blobs
  {
    var b := SetPc(a, pid, LastAfterCreate);
    var d := SetPc(b, pid, Recording(Accepted(|xs|, false), Transition.Reading(0)));
    PlayCall(cfg, a, pid, now, 0);
    PlayCall(cfg, a, pid, now, 1);
    CreateMeetsItself(cfg, a, pid, now, c, checksum, xs);
    TailIsAccepted(cfg, b, pid, now, c, xs);
    PlayCalls(cfg, a, pid, now, 2, 2);
    Records2(cfg, d, pid, now, c, Accepted(|xs|, false), n);
  }

  /** A replace that meets its own remembered event on append re-reads the tail, and logs nothing. */
  lemma DuplicateRereads(cfg: Config, w: World, pid: nat, now: int, c: Command, pc: Pc)
    requires c.mode.Replace? && Stands(cfg, w, pid, c, pc) && pc.AppendUpdate?
    requires SeenKey(DocKey(c), BlobValidatedId(c.tenantId, c.uploadId)) in w.log.seen
    ensures Next(cfg, w, Steps(pid, Works, now)) == SetPc(w, pid, LastAfterDuplicate)
  {
  }

  /** Theorem: with no record left, two working calls accept an upload that is logged, with its own version; they log
      nothing and make no record. */
  lemma ExpiredIsAccepted(cfg: Config, w: World, pid: nat, now: int, c: Command, n: World)
    requires LogOk(cfg, w.log) && Stands(cfg, w, pid, c, LoadRecord) && LoadedStatus(w.records, c) == None
    requires Logged(w.log, c) && n == Play(cfg, w, Calls(pid, now, 2))
    ensures n.log == w.log && n.blobs == w.blobs && n.records == w.records && pid in n.procs
    ensures var pc := n.procs[pid].pc;
            && pc.Done? && pc.expired && pc.outcome.AcceptedOutcome?
            && var xs := Stream(w.log, DocKey(c));
               && pc.outcome.documentId == c.documentId && !pc.outcome.superseded && 1 <= pc.outcome.version <= |xs|
               && Names(xs[pc.outcome.version - 1].event, c.uploadId)
  {
    PlayCall(cfg, w, pid, now, 0);
    PlayCall(cfg, w, pid, now, 1);
    LoadsNothing(cfg, w, pid, now, c);
    FindsOwn(cfg, SetPc(w, pid, CheckHistory), pid, now, c, n);
  }

  /** Theorem: four working calls give an expired upload back that is not logged, unrecorded. */
  lemma ExpiredIsGivenBack(cfg: Config, w: World, pid: nat, now: int, c: Command)
    requires Stands(cfg, w, pid, c, LoadRecord) && LoadedStatus(w.records, c) == None && !Logged(w.log, c)
    ensures Play(cfg, w, Calls(pid, now, 4))
            == SetPc(w.(blobs := Gone(w.blobs, c)), pid, Done(RejectedOutcome("upload_expired"), true))
  {
    var h := SetPc(w, pid, CheckHistory);
    var g := SetPc(h, pid, AbortMultipart("upload_expired", false));
    PlayCall(cfg, w, pid, now, 0);
    PlayCall(cfg, w, pid, now, 1);
    LoadsNothing(cfg, w, pid, now, c);
    CheckFails(cfg, h, pid, now, c);
    PlayCalls(cfg, w, pid, now, 2, 2);
    GivesAllBack(cfg, g, pid, now, c, "upload_expired", false);
  }

  lemma LoadsNothing(cfg: Config, w: World, pid: nat, now: int, c: Command)
    requires Stands(cfg, w, pid, c, LoadRecord) && LoadedStatus(w.records, c) == None
    ensures Next(cfg, w, Steps(pid, Works, now)) == SetPc(w, pid, CheckHistory)
  {
  }

  lemma CheckFails(cfg: Config, w: World, pid: nat, now: int, c: Command)
    requires Stands(cfg, w, pid, c, CheckHistory) && !Logged(w.log, c)
    ensures Next(cfg, w, Steps(pid, Works, now)) == SetPc(w, pid, AbortMultipart("upload_expired", false))
  {
    FindBlobLogged(w.log, c);
  }

  lemma FindsOwn(cfg: Config, h: World, pid: nat, now: int, c: Command, n: World)
    requires LogOk(cfg, h.log) && Stands(cfg, h, pid, c, CheckHistory) && Logged(h.log, c)
    requires n == Next(cfg, h, Steps(pid, Works, now))
    ensures n.log == h.log && n.blobs == h.blobs && n.records == h.records && pid in n.procs
    ensures var pc := n.procs[pid].pc;
            && pc.Done? && pc.expired && pc.outcome.AcceptedOutcome?
            && var xs := Stream(h.log, DocKey(c));
               && pc.outcome.documentId == c.documentId && !pc.outcome.superseded && 1 <= pc.outcome.version <= |xs|
               && Names(xs[pc.outcome.version - 1].event, c.uploadId)
  {
    OwnPlace(cfg, h.log, c);
  }

  lemma OwnPlace(cfg: Config, log: Log, c: Command)
    requires LogOk(cfg, log) && Logged(log, c)
    ensures var xs := Stream(log, DocKey(c));
            var x := FindBlob(xs, c.uploadId);
            x.Some? && 1 <= x.value.event.version <= |xs| && Names(xs[x.value.event.version - 1].event, c.uploadId)
  {
    var xs := Stream(log, DocKey(c));
    FindBlobLogged(log, c);
    FindBlobFinds(xs, c.uploadId);
    var i :| 0 <= i < |xs| && xs[i] == FindBlob(xs, c.uploadId).value;
    assert StreamOk(cfg, DocKey(c), xs, log.head);
    assert EntryOk(cfg, DocKey(c), i, xs[i]);
  }
}
