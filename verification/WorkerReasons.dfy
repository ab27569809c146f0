/** Why a delivery rejects, gives up for now, or throws an expired upload away: exactly when what the reason names is
    so. */
module WorkerReasons {
  import opened Wrappers
  import opened Domain
  import opened Fold
  import opened Subject
  import opened EventStore
  import opened UploadRecord
  import opened BlobStore
  import opened Worker
  import opened WorkerLog
  import opened WorkerSerial
  import opened WorkerOverlap
  import Transition

  // ------------------------------------------------------------------ by reason

  /** What a delivery finds: the stores, and how its call to them goes. */
  datatype Found = Found(pc: Pc, ask: Ask, last: bool, log: Log, blobs: Blobs, port: Port)

  /** The call failed, or its store no longer has what an earlier call found, or every attempt to append was lost: to be
      tried again, unless this is the last delivery. */
  predicate Transient(c: Command, f: Found) {
    || ((f.pc.LoadRecord? || Verifying(f.pc) || Logging(f.pc)) && !f.port.Works?
        && !(f.pc.Assemble? && f.port.Refused?))
    || (f.port.Works? && (f.pc.ReadPrefix? || f.pc.OpenRead?) && Object(c) !in f.blobs.objects)
    || (f.port.Works? && (f.pc.LastAfterCreate? || f.pc.LastForUpdate? || f.pc.LastAfterDuplicate?)
        && Stream(f.log, DocKey(c)) == [])
    || (f.port.Works? && f.pc.AppendUpdate? && f.pc.attempt >= 2
        && SeenKey(DocKey(c), BlobValidatedId(c.tenantId, c.uploadId)) !in f.log.seen
        && LastSeq(Stream(f.log, DocKey(c))) != f.pc.seqNo)
  }

  /** The listing is empty, the store refuses the parts, or a listed part is no longer there as listed. */
  predicate PartsDoNotFit(c: Command, f: Found) {
    || (f.pc.ListParts? && f.port.Works? && Multipart(c) in f.blobs.multiparts
        && f.blobs.multiparts[Multipart(c)] == [])
    || (f.pc.Assemble? && f.port.Refused?)
    || (f.pc.Assemble? && f.port.Works? && Multipart(c) in f.blobs.multiparts
        && Assembled(f.blobs.multiparts[Multipart(c)], f.pc.parts).None?)
  }

  predicate Working(f: Found, at: bool) {
    at && f.port.Works?
  }

  predicate Because(cfg: Config, c: Command, f: Found, reason: string) {
    || (reason == "invalid_parts" && PartsDoNotFit(c, f))
    || (reason == "multipart_lost" && Working(f, f.pc.Head?) && Object(c) !in f.blobs.objects)
    || (reason == "multipart_lost" && Working(f, f.pc.ReadHistory?) && Stream(f.log, DocKey(c)) == [])
    || (reason == "size_mismatch" && Working(f, f.pc.Head?) && Object(c) in f.blobs.objects
        && |f.blobs.objects[Object(c)]| != c.declaredSize)
    || (reason == "size_mismatch" && Working(f, f.pc.Scan?) && cfg.verify.clean(f.pc.bytes)
        && |f.pc.bytes| != c.declaredSize)
    || (reason == "content_rejected" && Working(f, f.pc.Validate?) && !cfg.verify.accepts(f.pc.size, f.pc.prefix, c))
    || (reason == "malware_detected" && Working(f, f.pc.Scan?) && !cfg.verify.clean(f.pc.bytes))
    || (reason == "corrupt_history" && Working(f, f.pc.ReadHistory?) && !Logged(f.log, c)
        && FoldHistory(Stream(f.log, DocKey(c))).Err?)
    || (reason == "version_conflict" && Working(f, f.pc.ReadHistory?) && !Logged(f.log, c)
        && Conflicts(f.ask, FoldHistory(Stream(f.log, DocKey(c)))))
    || (reason == "pipeline_failed" && f.last && Transient(c, f))
  }

  /** The request insists on a version that is not the one the history folds to. */
  predicate Conflicts(ask: Ask, r: Result<Option<DocumentState>, FoldError>) {
    && ask.onConflict.Fail? && ask.ifMatch.Some?
    && r.Ok? && r.value.Some? && r.value.value.version != ask.ifMatch.value
  }

  function NextOf(cfg: Config, c: Command, f: Found, rs: Records, now: int): Pc {
    NextPc(cfg, c, f.ask, f.last, f.pc, f.log, f.blobs, rs, f.port, now)
  }

  predicate Rejects(pc: Pc, reason: string) {
    pc == AbortMultipart(reason, true)
  }

  lemma VerifyReason(cfg: Config, c: Command, f: Found, reason: string)
    requires Verifying(f.pc)
    ensures Rejects(VerifyNext(cfg, c, f.last, f.pc, f.blobs, f.port), reason) <==> Because(cfg, c, f, reason)
    ensures VerifyNext(cfg, c, f.last, f.pc, f.blobs, f.port) == Done(RetryOutcome, false)
            <==> !f.last && Transient(c, f)
  {
  }

  lemma HistoryReason(cfg: Config, c: Command, f: Found, reason: string, now: int)
    requires f.pc.ReadHistory?
    ensures Rejects(LogNext(c, f.ask, f.last, f.pc, f.log, f.port, now), reason) <==> Because(cfg, c, f, reason)
    ensures LogNext(c, f.ask, f.last, f.pc, f.log, f.port, now) == Done(RetryOutcome, false)
            <==> !f.last && Transient(c, f)
  {
    FindBlobLogged(f.log, c);
  }

  lemma LogReason(cfg: Config, c: Command, f: Found, reason: string, now: int)
    requires Logging(f.pc) && !f.pc.ReadHistory? && (f.pc.AppendUpdate? ==> c.mode.Replace?)
    ensures Rejects(LogNext(c, f.ask, f.last, f.pc, f.log, f.port, now), reason) <==> Because(cfg, c, f, reason)
    ensures LogNext(c, f.ask, f.last, f.pc, f.log, f.port, now) == Done(RetryOutcome, false)
            <==> !f.last && Transient(c, f)
  {
  }

  /** A delivery starts a recorded rejection exactly when what its reason names is so, and asks to be retried exactly
      when the trouble is transient and this is not the last delivery. */
  lemma ReasonIsExact(cfg: Config, c: Command, f: Found, rs: Records, now: int, reason: string)
    requires f.pc.AppendUpdate? ==> c.mode.Replace?
    requires !f.pc.Done? && !f.pc.Recording? && !f.pc.AbortMultipart? && !f.pc.DeleteObject?
    ensures Rejects(NextOf(cfg, c, f, rs, now), reason) <==> Because(cfg, c, f, reason)
    ensures NextOf(cfg, c, f, rs, now) == Done(RetryOutcome, false) <==> !f.last && Transient(c, f)
  {
    if Verifying(f.pc) {
      VerifyReason(cfg, c, f, reason);
    } else if f.pc.ReadHistory? {
      HistoryReason(cfg, c, f, reason, now);
    } else if Logging(f.pc) {
      LogReason(cfg, c, f, reason, now);
    }
  }

  /** An expired upload is thrown away, unrecorded, exactly when the log does not have it. */
  lemma ExpiredExactly(cfg: Config, c: Command, f: Found, rs: Records, now: int, reason: string)
    ensures NextOf(cfg, c, f, rs, now) == AbortMultipart(reason, false)
            <==> reason == "upload_expired" && f.pc.CheckHistory? && f.port.Works? && !Logged(f.log, c)
  {
    FindBlobLogged(f.log, c);
  }

  // ------------------------------------------------------------------ over every run

  function Finds(w: World, p: Proc, port: Port): Found {
    Found(p.pc, p.ask, p.last, w.log, w.blobs, port)
  }

  /** What a reason says of the stores in the state in which the delivery gives it. */
  predicate IsTrue(cfg: Config, c: Command, f: Found, reason: string) {
    var xs := Stream(f.log, DocKey(c));
    || (reason == "invalid_parts" && PartsDoNotFit(c, f))
    || (reason == "multipart_lost" && (!Present(f.blobs, c) || (c.mode.Replace? && xs == [])))
    || (reason == "size_mismatch" && (Present(f.blobs, c) ==> |f.blobs.objects[Object(c)]| != c.declaredSize))
    || (reason == "content_rejected"
        && (Present(f.blobs, c) ==>
              var bytes := f.blobs.objects[Object(c)]; !cfg.verify.accepts(|bytes|, Prefix(bytes), c)))
    || (reason == "malware_detected" && (Present(f.blobs, c) ==> !cfg.verify.clean(f.blobs.objects[Object(c)])))
    || (reason == "version_conflict" && c.mode.Replace? && !Logged(f.log, c) && xs != []
        && f.ask.onConflict.Fail? && f.ask.ifMatch.Some? && f.ask.ifMatch.value != |xs|)
    || (reason == "pipeline_failed" && f.last && Transient(c, f))
  }

  lemma BecauseIsTrue(cfg: Config, c: Command, f: Found, reason: string)
    requires Because(cfg, c, f, reason) && PcOk(cfg, f.log, c, f.pc) && PcKnows(cfg, f.blobs, c, f.pc)
    requires LogOk(cfg, f.log)
    ensures IsTrue(cfg, c, f, reason)
  {
    var xs := Stream(f.log, DocKey(c));
    if f.pc.ReadHistory? && xs != [] {
      assert StreamOk(cfg, DocKey(c), xs, f.log.head);
      StreamFolds(cfg, DocKey(c), xs, f.log.head, |xs|);
      assert xs[..|xs|] == xs;
    }
  }

  /** Theorem: over every run, however deliveries overlap, fail and crash, a delivery enters a recorded rejection
      only with a reason that is true of the stores at that moment; a corrupt history is never found. */
  lemma RejectionsAreTrue(cfg: Config, acts: seq<Action>, pid: nat, port: Port, now: int, reason: string)
    requires FreshIds(cfg) && pid in Run(cfg, acts).procs
    requires Rejects(Next(cfg, Run(cfg, acts), Steps(pid, port, now)).procs[pid].pc, reason)
    ensures var w := Run(cfg, acts);
            && w.procs[pid].upload in cfg.commands
            && IsTrue(cfg, cfg.commands[w.procs[pid].upload], Finds(w, w.procs[pid], port), reason)
  {
    var w := Run(cfg, acts);
    var p := w.procs[pid];
    RunInv(cfg, acts);
    RunKnows(cfg, acts);
    assert ProcOk(cfg, w.log, p) && Knowing(cfg, w, p);
    var c, f := cfg.commands[p.upload], Finds(w, p, port);
    assert NextOf(cfg, c, f, w.records, now) == Next(cfg, w, Steps(pid, port, now)).procs[pid].pc;
    StartsToReject(cfg, c, f, w.records, now, reason);
    ReasonIsExact(cfg, c, f, w.records, now, reason);
    BecauseIsTrue(cfg, c, f, reason);
  }

  lemma StartsToReject(cfg: Config, c: Command, f: Found, rs: Records, now: int, reason: string)
    requires Rejects(NextOf(cfg, c, f, rs, now), reason)
    ensures !f.pc.Done? && !f.pc.Recording? && !f.pc.AbortMultipart? && !f.pc.DeleteObject?
  {
  }
}
