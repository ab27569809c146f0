/** Deliveries that overlap freely: exactly which runs keep the bytes that logged events name. */
module WorkerOverlap {
  import opened Wrappers
  import opened Domain
  import opened Subject
  import opened EventStore
  import opened UploadRecord
  import opened BlobStore
  import opened Worker
  import opened WorkerLog
  import opened WorkerSerial

  predicate GivingBack(pc: Pc) {
    pc.AbortMultipart? || pc.DeleteObject?
  }

  /** No delivery of the upload is giving its bytes back. */
  predicate NoneGivingBack(w: World, u: Id) {
    forall q :: q in w.procs && w.procs[q].upload == u ==> !GivingBack(w.procs[q].pc)
  }

  /** What a step must respect: a delivery starts giving bytes back only while its upload is not logged, and an upload
      becomes logged only while its bytes are there and nobody is giving them back. */
  predicate KeepsBytes(cfg: Config, w: World, a: Action) {
    a.Steps? && a.pid in w.procs && w.procs[a.pid].upload in cfg.commands ==>
      var u := w.procs[a.pid].upload;
      var c, n := cfg.commands[u], Next(cfg, w, a);
      && (n.procs[a.pid].pc.AbortMultipart? ==> !Logged(n.log, c))
      && (Logged(n.log, c) && !Logged(w.log, c) ==> Object(c) in w.blobs.objects && NoneGivingBack(w, u))
  }

  /** Every step of the run keeps bytes. */
  ghost predicate KeepingRun(cfg: Config, acts: seq<Action>) {
    acts == []
    || (var n := |acts| - 1;
        KeepingRun(cfg, acts[..n]) && KeepsBytes(cfg, Run(cfg, acts[..n]), acts[n]))
  }

  // ------------------------------------------------------------------ what a delivery knows of bytes that may be gone

  predicate Present(b: Blobs, c: Command) {
    Object(c) in b.objects
  }

  predicate PcKnows(cfg: Config, b: Blobs, c: Command, pc: Pc) {
    match pc
    case Head => Closed(b, c)
    case ReadPrefix(size) => Closed(b, c) && size == c.declaredSize && (Present(b, c) ==> Sized(b, c))
    case Validate(size, prefix) =>
      && Closed(b, c) && size == c.declaredSize
      && (Present(b, c) ==> Sized(b, c) && prefix == Prefix(b.objects[Object(c)]))
    case OpenRead => Closed(b, c) && (Present(b, c) ==> Validated(cfg, b, c))
    case Scan(bytes) =>
      Closed(b, c) && (Present(b, c) ==> Validated(cfg, b, c) && bytes == b.objects[Object(c)])
    case AppendCreate(checksum) => Closed(b, c) && (Present(b, c) ==> Describes(cfg, b, c, checksum))
    case ReadHistory(checksum) => Closed(b, c) && (Present(b, c) ==> Describes(cfg, b, c, checksum))
    case LastForUpdate(checksum, _, _) => Closed(b, c) && (Present(b, c) ==> Describes(cfg, b, c, checksum))
    case AppendUpdate(checksum, _, _, _, _) => Closed(b, c) && (Present(b, c) ==> Describes(cfg, b, c, checksum))
    case _ => true
  }

  predicate ProcKnows(cfg: Config, w: World, p: Proc) {
    && p.upload in cfg.commands && p.upload in w.begun
    && PcKnows(cfg, w.blobs, cfg.commands[p.upload], p.pc)
    && (GivingBack(p.pc) ==> !Logged(w.log, cfg.commands[p.upload]))
  }

  ghost predicate OverlapInv(cfg: Config, w: World) {
    && (forall u :: u in cfg.commands ==> UploadSafe(cfg, w, u))
    && forall p :: p in w.procs ==> ProcKnows(cfg, w, w.procs[p])
  }

  // ------------------------------------------------------------------ a delivery's own step

  lemma VerifyKnows(cfg: Config, b: Blobs, c: Command, last: bool, pc: Pc, port: Port)
    requires Verifying(pc) && PcKnows(cfg, b, c, pc)
    ensures PcKnows(cfg, NextBlobs(c, pc, b, port), c, VerifyNext(cfg, c, last, pc, b, port))
  {
    if !pc.Assemble? {
      assert NextBlobs(c, pc, b, port) == b;
    }
  }

  lemma LogKnows(cfg: Config, b: Blobs, c: Command, ask: Ask, last: bool, pc: Pc, log: Log, port: Port, now: int)
    requires Logging(pc) && PcKnows(cfg, b, c, pc)
    ensures PcKnows(cfg, b, c, LogNext(c, ask, last, pc, log, port, now))
  {
  }

  lemma OwnKnows(cfg: Config, b: Blobs, c: Command, ask: Ask, last: bool, pc: Pc, log: Log, rs: Records, port: Port,
                 now: int)
    requires PcKnows(cfg, b, c, pc)
    ensures PcKnows(cfg, NextBlobs(c, pc, b, port), c, NextPc(cfg, c, ask, last, pc, log, b, rs, port, now))
  {
    if Verifying(pc) {
      VerifyKnows(cfg, b, c, last, pc, port);
    } else if Logging(pc) {
      LogKnows(cfg, b, c, ask, last, pc, log, port, now);
    }
  }

  /** A delivery starts giving back only by aborting, and goes on without touching the log. */
  lemma StillUnlogged(cfg: Config, w: World, pid: nat, port: Port, now: int, n: World, c: Command)
    requires pid in w.procs && w.procs[pid].upload in cfg.commands && c == cfg.commands[w.procs[pid].upload]
    requires n == StepProc(cfg, w, pid, port, now)
    requires GivingBack(w.procs[pid].pc) ==> !Logged(w.log, c)
    requires n.procs[pid].pc.AbortMultipart? ==> !Logged(n.log, c)
    ensures GivingBack(n.procs[pid].pc) ==> !Logged(n.log, c)
  {
    if n.procs[pid].pc.DeleteObject? {
      OnlyAfterAbort(cfg, w, pid, port, now, n);
    }
  }

  lemma OnlyAfterAbort(cfg: Config, w: World, pid: nat, port: Port, now: int, n: World)
    requires pid in w.procs && w.procs[pid].upload in cfg.commands && n == StepProc(cfg, w, pid, port, now)
    requires n.procs[pid].pc.DeleteObject?
    ensures w.procs[pid].pc.AbortMultipart? && n.log == w.log
  {
  }

  // ------------------------------------------------------------------ the same upload's other deliveries

  /** A step of a delivery never opens a multipart, never writes an object whose multipart is closed, and deletes only
      when it is at the delete. */
  predicate Fades(a: Blobs, b: Blobs, c: Command) {
    && (Closed(a, c) ==> Closed(b, c))
    && (Closed(a, c) && Present(b, c) ==> Present(a, c) && b.objects[Object(c)] == a.objects[Object(c)])
  }

  lemma StepFades(c: Command, pc: Pc, b: Blobs, port: Port, d: Command)
    requires c.uploadId == d.uploadId ==> c == d
    ensures Fades(b, NextBlobs(c, pc, b, port), d)
    ensures (pc.DeleteObject? && Object(c) == Object(d)) || (Present(b, d) ==> Present(NextBlobs(c, pc, b, port), d))
  {
  }

  lemma KnowsFades(cfg: Config, a: Blobs, b: Blobs, c: Command, pc: Pc)
    requires Fades(a, b, c) && PcKnows(cfg, a, c, pc)
    ensures PcKnows(cfg, b, c, pc)
  {
  }

  // ------------------------------------------------------------------ uploads stay safe

  /** The stepping upload: logged only with its bytes there, and nobody deletes logged bytes. */
  lemma OwnUploadKept(cfg: Config, w: World, pid: nat, port: Port, now: int, n: World, c: Command)
    requires FreshIds(cfg) && OverlapInv(cfg, w) && pid in w.procs && w.procs[pid].upload in cfg.commands
    requires c == cfg.commands[w.procs[pid].upload] && n == StepProc(cfg, w, pid, port, now)
    requires Logged(n.log, c) && !Logged(w.log, c) ==> Present(w.blobs, c)
    ensures UploadSafe(cfg, n, w.procs[pid].upload)
  {
    var p := w.procs[pid];
    assert ProcKnows(cfg, w, p) && UploadSafe(cfg, w, p.upload);
    StepFades(c, p.pc, w.blobs, port, c);
    if p.pc.AppendCreate? {
      PublishSays(w.log, c, CreateEvent(c, p.ask, p.pc, now), CreateOnly, Facts(c, p.pc.checksum));
    } else if p.pc.AppendUpdate? {
      PublishSays(w.log, c, UpdateEvent(c, p.ask, p.pc), Exactly(p.pc.seqNo), Facts(c, p.pc.checksum));
    } else {
      assert n.log == w.log;
    }
  }

  lemma StepUploadsKept(cfg: Config, w: World, pid: nat, port: Port, now: int, n: World)
    requires FreshIds(cfg) && OverlapInv(cfg, w) && pid in w.procs && w.procs[pid].upload in cfg.commands
    requires n == StepProc(cfg, w, pid, port, now)
    requires var c := cfg.commands[w.procs[pid].upload];
             Logged(n.log, c) && !Logged(w.log, c) ==> Present(w.blobs, c)
    ensures forall u :: u in cfg.commands ==> UploadSafe(cfg, n, u)
  {
    forall u | u in cfg.commands
      ensures UploadSafe(cfg, n, u)
    {
      if u == w.procs[pid].upload {
        OwnUploadKept(cfg, w, pid, port, now, n, cfg.commands[u]);
      } else {
        OtherUploadSafe(cfg, w, pid, port, now, u, n);
      }
    }
  }

  // ------------------------------------------------------------------ deliveries stay right

  lemma OwnProcKnows(cfg: Config, w: World, pid: nat, port: Port, now: int, n: World, c: Command)
    requires pid in w.procs && ProcKnows(cfg, w, w.procs[pid]) && c == cfg.commands[w.procs[pid].upload]
    requires n == StepProc(cfg, w, pid, port, now) && (n.procs[pid].pc.AbortMultipart? ==> !Logged(n.log, c))
    ensures ProcKnows(cfg, n, n.procs[pid])
  {
    var p := w.procs[pid];
    OwnKnows(cfg, w.blobs, c, p.ask, p.last, p.pc, w.log, w.records, port, now);
    StillUnlogged(cfg, w, pid, port, now, n, c);
  }

  lemma OtherProcKnows(cfg: Config, w: World, pid: nat, port: Port, now: int, n: World, q: nat, d: Command)
    requires FreshIds(cfg) && pid in w.procs && w.procs[pid].upload in cfg.commands
    requires n == StepProc(cfg, w, pid, port, now) && q in w.procs && ProcKnows(cfg, w, w.procs[q])
    requires d == cfg.commands[w.procs[q].upload]
    requires w.procs[q].upload == w.procs[pid].upload && Logged(n.log, d) && !Logged(w.log, d) ==>
               !GivingBack(w.procs[q].pc)
    ensures ProcKnows(cfg, n, w.procs[q])
  {
    var c := cfg.commands[w.procs[pid].upload];
    StepFades(c, w.procs[pid].pc, w.blobs, port, d);
    KnowsFades(cfg, w.blobs, n.blobs, d, w.procs[q].pc);
    if w.procs[q].upload != w.procs[pid].upload {
      StepForOthers(cfg, w, pid, port, now, d);
    }
  }

  lemma StepProcOverlap(cfg: Config, w: World, pid: nat, port: Port, now: int, n: World)
    requires FreshIds(cfg) && OverlapInv(cfg, w) && pid in w.procs && w.procs[pid].upload in cfg.commands
    requires KeepsBytes(cfg, w, Steps(pid, port, now)) && n == StepProc(cfg, w, pid, port, now)
    ensures OverlapInv(cfg, n)
  {
    KeepsMeans(cfg, w, pid, port, now, n);
    StepUploadsKept(cfg, w, pid, port, now, n);
    assert ProcKnows(cfg, w, w.procs[pid]);
    OwnProcKnows(cfg, w, pid, port, now, n, cfg.commands[w.procs[pid].upload]);
    forall q | q in n.procs && q != pid
      ensures ProcKnows(cfg, n, n.procs[q])
    {
      assert ProcKnows(cfg, w, w.procs[q]);
      OtherProcKnows(cfg, w, pid, port, now, n, q, cfg.commands[w.procs[q].upload]);
    }
  }

  lemma KeepsMeans(cfg: Config, w: World, pid: nat, port: Port, now: int, n: World)
    requires pid in w.procs && w.procs[pid].upload in cfg.commands && n == StepProc(cfg, w, pid, port, now)
    requires KeepsBytes(cfg, w, Steps(pid, port, now))
    ensures var c := cfg.commands[w.procs[pid].upload];
            && (n.procs[pid].pc.AbortMultipart? ==> !Logged(n.log, c))
            && (Logged(n.log, c) && !Logged(w.log, c) ==> Present(w.blobs, c) && NoneGivingBack(w, w.procs[pid].upload))
  {
    assert n == Next(cfg, w, Steps(pid, port, now));
  }

  // ------------------------------------------------------------------ the environment

  lemma EnvBlobs(cfg: Config, w: World, a: Action, n: World, d: Command)
    requires FreshIds(cfg) && !a.Steps? && n == Next(cfg, w, a) && d.uploadId in w.begun
    ensures Fades(w.blobs, n.blobs, d) && w.begun <= n.begun
  {
    EnvForAll(cfg, w, a, d);
  }

  lemma EnvOverlap(cfg: Config, w: World, a: Action, n: World)
    requires FreshIds(cfg) && OverlapInv(cfg, w) && !a.Steps? && n == Next(cfg, w, a)
    ensures OverlapInv(cfg, n)
  {
    forall u | u in cfg.commands
      ensures UploadSafe(cfg, n, u)
    {
      EnvUpload(cfg, w, a, u, n);
    }
    EnvNewcomers(cfg, w, a, n);
    forall q | q in n.procs
      ensures ProcKnows(cfg, n, n.procs[q])
    {
      if q in w.procs {
        assert ProcKnows(cfg, w, w.procs[q]);
        EnvProcKnows(cfg, w, a, n, w.procs[q]);
      }
    }
  }

  lemma EnvProcKnows(cfg: Config, w: World, a: Action, n: World, p: Proc)
    requires FreshIds(cfg) && !a.Steps? && n == Next(cfg, w, a) && ProcKnows(cfg, w, p)
    ensures ProcKnows(cfg, n, p)
  {
    var d := cfg.commands[p.upload];
    EnvBlobs(cfg, w, a, n, d);
    EnvForAll(cfg, w, a, d);
    KnowsFades(cfg, w.blobs, n.blobs, d, p.pc);
  }

  lemma EnvNewcomers(cfg: Config, w: World, a: Action, n: World)
    requires !a.Steps? && n == Next(cfg, w, a)
    ensures forall q :: q in n.procs ==>
              if q in w.procs then n.procs[q] == w.procs[q]
              else n.procs[q].pc == LoadRecord && n.procs[q].upload in n.begun && n.procs[q].upload in cfg.commands
  {
  }

  lemma {:induction false} RunOverlap(cfg: Config, acts: seq<Action>)
    requires FreshIds(cfg) && KeepingRun(cfg, acts)
    ensures OverlapInv(cfg, Run(cfg, acts))
  {
    if acts != [] {
      var m := |acts| - 1;
      var init, a := acts[..m], acts[m];
      RunOverlap(cfg, init);
      var w := Run(cfg, init);
      if a.Steps? {
        if a.pid in w.procs {
          assert ProcKnows(cfg, w, w.procs[a.pid]);
          StepProcOverlap(cfg, w, a.pid, a.port, a.now, Run(cfg, acts));
        }
      } else {
        EnvOverlap(cfg, w, a, Run(cfg, acts));
      }
    }
  }

  // ------------------------------------------------------------------ what deliveries know in any run whatever

  ghost predicate KnowsInv(cfg: Config, w: World) {
    forall p :: p in w.procs ==> Knowing(cfg, w, w.procs[p])
  }

  predicate Knowing(cfg: Config, w: World, p: Proc) {
    p.upload in cfg.commands && p.upload in w.begun && PcKnows(cfg, w.blobs, cfg.commands[p.upload], p.pc)
  }

  lemma StepKnows(cfg: Config, w: World, a: Action, n: World)
    requires FreshIds(cfg) && KnowsInv(cfg, w) && n == Next(cfg, w, a)
    ensures KnowsInv(cfg, n)
  {
    if a.Steps? {
      if a.pid in w.procs {
        assert Knowing(cfg, w, w.procs[a.pid]);
        StepProcKnows(cfg, w, a.pid, a.port, a.now, n);
      }
    } else {
      EnvNewcomers(cfg, w, a, n);
      forall q | q in n.procs
        ensures Knowing(cfg, n, n.procs[q])
      {
        if q in w.procs {
          assert Knowing(cfg, w, w.procs[q]);
          var d := cfg.commands[w.procs[q].upload];
          EnvBlobs(cfg, w, a, n, d);
          KnowsFades(cfg, w.blobs, n.blobs, d, w.procs[q].pc);
        }
      }
    }
  }

  lemma StepProcKnows(cfg: Config, w: World, pid: nat, port: Port, now: int, n: World)
    requires FreshIds(cfg) && KnowsInv(cfg, w) && pid in w.procs && w.procs[pid].upload in cfg.commands
    requires n == StepProc(cfg, w, pid, port, now)
    ensures KnowsInv(cfg, n)
  {
    var p := w.procs[pid];
    var c := cfg.commands[p.upload];
    assert Knowing(cfg, w, p);
    OwnKnows(cfg, w.blobs, c, p.ask, p.last, p.pc, w.log, w.records, port, now);
    forall q | q in n.procs && q != pid
      ensures Knowing(cfg, n, n.procs[q])
    {
      assert Knowing(cfg, w, w.procs[q]);
      var d := cfg.commands[w.procs[q].upload];
      StepFades(c, p.pc, w.blobs, port, d);
      KnowsFades(cfg, w.blobs, n.blobs, d, w.procs[q].pc);
    }
  }

  lemma {:induction false} RunKnows(cfg: Config, acts: seq<Action>)
    requires FreshIds(cfg)
    ensures KnowsInv(cfg, Run(cfg, acts))
  {
    if acts != [] {
      var m := |acts| - 1;
      RunKnows(cfg, acts[..m]);
      StepKnows(cfg, Run(cfg, acts[..m]), acts[m], Run(cfg, acts));
    }
  }

  // ------------------------------------------------------------------ theorems

  /** Theorem: however deliveries overlap, fail and crash, as long as every step keeps bytes, the object each logged
      event names is there, with the size and the checksum the event states, accepted and clean. */
  lemma OverlappingBytesSurvive(cfg: Config, acts: seq<Action>, k: Key, i: nat)
    requires FreshIds(cfg) && KeepingRun(cfg, acts) && i < |Stream(Run(cfg, acts).log, k)|
    ensures BytesAreThere(cfg, Run(cfg, acts), k, i)
  {
    var w := Run(cfg, acts);
    RunInv(cfg, acts);
    RunOverlap(cfg, acts);
    assert StreamOk(cfg, k, Stream(w.log, k), w.log.head);
    assert EntryOk(cfg, k, i, Stream(w.log, k)[i]);
    var u := BlobRef(Stream(w.log, k)[i].event.payload).value;
    assert Logged(w.log, cfg.commands[u]);
    assert UploadSafe(cfg, w, u);
  }

  /** `KeepsBytes` is exact: from wherever a step breaks it, at most two more working calls of one delivery leave a
      logged event without its bytes. */
  lemma UnsafeStepDestroys(cfg: Config, w: World, a: Action, now: int)
    requires FreshIds(cfg) && !KeepsBytes(cfg, w, a)
    ensures a.Steps? && a.pid in w.procs && w.procs[a.pid].upload in cfg.commands
    ensures var c := cfg.commands[w.procs[a.pid].upload];
            exists q: nat, n: nat :: n <= 2 && LoggedWithoutBytes(Play(cfg, Next(cfg, w, a), Calls(q, now, n)), c)
  {
    var u := w.procs[a.pid].upload;
    var c, n := cfg.commands[u], Next(cfg, w, a);
    if n.procs[a.pid].pc.AbortMultipart? && Logged(n.log, c) {
      FinishesGivingBack(cfg, n, a.pid, now, c);
    } else if Object(c) !in w.blobs.objects {
      LandsBare(cfg, w, a, n, c);
      PlayCall(cfg, n, a.pid, now, 0);
      assert LoggedWithoutBytes(Play(cfg, n, Calls(a.pid, now, 0)), c);
    } else {
      var q :| q in w.procs && w.procs[q].upload == u && GivingBack(w.procs[q].pc);
      LandsAppending(cfg, w, a, c);
      assert q != a.pid && n.procs[q] == w.procs[q];
      FinishesGivingBack(cfg, n, q, now, c);
    }
  }

  /** Only an append makes an upload logged. */
  lemma LandsAppending(cfg: Config, w: World, a: Action, c: Command)
    requires a.Steps? && a.pid in w.procs && w.procs[a.pid].upload in cfg.commands
    requires c == cfg.commands[w.procs[a.pid].upload] && Logged(Next(cfg, w, a).log, c) && !Logged(w.log, c)
    ensures w.procs[a.pid].pc.AppendCreate? || w.procs[a.pid].pc.AppendUpdate?
  {
  }

  lemma LandsBare(cfg: Config, w: World, a: Action, n: World, c: Command)
    requires a.Steps? && a.pid in w.procs && w.procs[a.pid].upload in cfg.commands && n == Next(cfg, w, a)
    requires c == cfg.commands[w.procs[a.pid].upload] && Logged(n.log, c) && !Logged(w.log, c)
    requires Object(c) !in w.blobs.objects
    ensures LoggedWithoutBytes(n, c)
  {
    LandsAppending(cfg, w, a, c);
  }

  /** A delivery that is giving bytes back needs at most two calls to delete them. */
  lemma FinishesGivingBack(cfg: Config, w: World, q: nat, now: int, c: Command)
    requires q in w.procs && w.procs[q].upload in cfg.commands && c == cfg.commands[w.procs[q].upload]
    requires GivingBack(w.procs[q].pc) && Logged(w.log, c)
    ensures exists n: nat :: n <= 2 && LoggedWithoutBytes(Play(cfg, w, Calls(q, now, n)), c)
  {
    PlayCall(cfg, w, q, now, 0);
    if w.procs[q].pc.AbortMultipart? {
      PlayCall(cfg, w, q, now, 1);
      GivesBack(cfg, w, q, now);
      assert LoggedWithoutBytes(Play(cfg, w, Calls(q, now, 2)), c);
    } else {
      assert LoggedWithoutBytes(Play(cfg, w, Calls(q, now, 1)), c);
    }
  }

  /** Serial runs whose final deliveries are safe are among them. */
  lemma {:induction false} SerialRunsKeepBytes(cfg: Config, acts: seq<Action>)
    requires FreshIds(cfg) && SerialRun(cfg, acts)
    ensures KeepingRun(cfg, acts)
  {
    if acts != [] {
      var n := |acts| - 1;
      SerialRunsKeepBytes(cfg, acts[..n]);
      RunSerial(cfg, acts[..n]);
      RunSerial(cfg, acts);
      SerialStepKeeps(cfg, Run(cfg, acts[..n]), acts[n], Run(cfg, acts));
    }
  }

  lemma SerialStepKeeps(cfg: Config, w: World, a: Action, n: World)
    requires SerialInv(cfg, w) && SerialInv(cfg, n) && n == Next(cfg, w, a)
    ensures KeepsBytes(cfg, w, a)
  {
    if a.Steps? && a.pid in w.procs && w.procs[a.pid].upload in cfg.commands {
      var c := cfg.commands[w.procs[a.pid].upload];
      assert ProcSafe(cfg, w, w.procs[a.pid]) && ProcSafe(cfg, n, n.procs[a.pid]);
      if Logged(n.log, c) && !Logged(w.log, c) {
        LandsAppending(cfg, w, a, c);
      }
    }
  }
}
