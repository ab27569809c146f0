/** One delivery in flight per upload: the bytes a logged event names are never given back. Other uploads interleave
    freely. */
module WorkerSerial {
  import opened Wrappers
  import opened Domain
  import opened Subject
  import opened EventStore
  import opened UploadRecord
  import opened BlobStore
  import opened Worker
  import opened WorkerLog

  // ------------------------------------------------------------------ which runs

  predicate Active(pc: Pc) {
    !pc.Done?
  }

  /** A work item is redelivered only after its previous delivery ended or died. */
  predicate SerialStep(w: World, a: Action) {
    a.Delivers? ==> forall p :: p in w.procs && w.procs[p].upload == a.u ==> !Active(w.procs[p].pc)
  }

  /** A last delivery turns a transient failure into a rejection without asking the log; this says that when it does so,
      the upload's event is not there. It says nothing about other deliveries. */
  predicate SafeFinal(cfg: Config, w: World, a: Action) {
    a.Steps? && a.pid in w.procs && w.procs[a.pid].upload in cfg.commands && w.procs[a.pid].last ==>
      var n := Next(cfg, w, a);
      n.procs[a.pid].pc.AbortMultipart? ==> !Logged(n.log, cfg.commands[w.procs[a.pid].upload])
  }

  /** Deliveries of one upload do not overlap, at any step of the run. */
  ghost predicate OneInFlight(cfg: Config, acts: seq<Action>) {
    acts == []
    || (var n := |acts| - 1;
        OneInFlight(cfg, acts[..n]) && SerialStep(Run(cfg, acts[..n]), acts[n]))
  }

  ghost predicate FinalsAreSafe(cfg: Config, acts: seq<Action>) {
    acts == []
    || (var n := |acts| - 1;
        FinalsAreSafe(cfg, acts[..n]) && SafeFinal(cfg, Run(cfg, acts[..n]), acts[n]))
  }

  ghost predicate SerialRun(cfg: Config, acts: seq<Action>) {
    OneInFlight(cfg, acts) && FinalsAreSafe(cfg, acts)
  }

  // ------------------------------------------------------------------ what is known of the bytes

  predicate Closed(b: Blobs, c: Command) {
    Multipart(c) !in b.multiparts
  }

  predicate Sized(b: Blobs, c: Command) {
    Object(c) in b.objects && |b.objects[Object(c)]| == c.declaredSize
  }

  predicate Validated(cfg: Config, b: Blobs, c: Command) {
    Sized(b, c) && cfg.verify.accepts(c.declaredSize, Prefix(b.objects[Object(c)]), c)
  }

  /** The object is there, of the declared size, accepted by the validator and clean; nothing can reassemble it. */
  predicate Sound(cfg: Config, b: Blobs, c: Command) {
    Closed(b, c) && Validated(cfg, b, c) && cfg.verify.clean(b.objects[Object(c)])
  }

  /** The bytes an append is about to describe. */
  predicate Describes(cfg: Config, b: Blobs, c: Command, checksum: string) {
    Sound(cfg, b, c) && checksum == Checksum(cfg, b.objects[Object(c)])
  }

  predicate PcSafe(cfg: Config, log: Log, b: Blobs, c: Command, pc: Pc) {
    match pc
    case Assemble(_) => !Logged(log, c)
    case Head => Closed(b, c)
    case ReadPrefix(size) => Closed(b, c) && Sized(b, c) && size == c.declaredSize
    case Validate(size, prefix) =>
      Closed(b, c) && Sized(b, c) && size == c.declaredSize && prefix == Prefix(b.objects[Object(c)])
    case OpenRead => Closed(b, c) && Validated(cfg, b, c)
    case Scan(bytes) => Closed(b, c) && Validated(cfg, b, c) && bytes == b.objects[Object(c)]
    case AppendCreate(checksum) => Describes(cfg, b, c, checksum)
    case ReadHistory(checksum) => Describes(cfg, b, c, checksum)
    case LastForUpdate(checksum, _, _) => Describes(cfg, b, c, checksum) && !Logged(log, c)
    case AppendUpdate(checksum, _, _, _, _) => Describes(cfg, b, c, checksum) && !Logged(log, c)
    case LastAfterDuplicate => false
    case AbortMultipart(_, _) => !Logged(log, c)
    case DeleteObject(_, _) => !Logged(log, c)
    case _ => true
  }

  predicate UploadSafe(cfg: Config, w: World, u: Id)
    requires u in cfg.commands
  {
    var c := cfg.commands[u];
    Logged(w.log, c) ==>
      u in w.begun && Sound(cfg, w.blobs, c) && Says(w.log, c, Facts(c, Checksum(cfg, w.blobs.objects[Object(c)])))
  }

  /** Every event of the upload carries these facts. */
  predicate Says(log: Log, c: Command, facts: BlobFacts) {
    var xs := Stream(log, DocKey(c));
    forall i :: 0 <= i < |xs| && Names(xs[i].event, c.uploadId) ==> FactsOf(xs[i].event.payload) == Some(facts)
  }

  predicate ProcSafe(cfg: Config, w: World, p: Proc) {
    p.upload in cfg.commands && p.upload in w.begun && PcSafe(cfg, w.log, w.blobs, cfg.commands[p.upload], p.pc)
  }

  predicate OnePerUpload(w: World) {
    forall p, q :: p in w.procs && q in w.procs && p != q && w.procs[p].upload == w.procs[q].upload ==>
      !Active(w.procs[p].pc) || !Active(w.procs[q].pc)
  }

  ghost predicate SerialInv(cfg: Config, w: World) {
    && OnePerUpload(w)
    && (forall u :: u in cfg.commands ==> UploadSafe(cfg, w, u))
    && forall p :: p in w.procs ==> ProcSafe(cfg, w, w.procs[p])
  }

  // ------------------------------------------------------------------ a delivery's own step

  /** While verifying: it goes to a rejection only if the upload is not logged. */
  lemma VerifySafe(cfg: Config, log: Log, b: Blobs, c: Command, last: bool, pc: Pc, port: Port)
    requires Verifying(pc) && PcSafe(cfg, log, b, c, pc)
    requires Logged(log, c) ==> Sound(cfg, b, c)
    requires last ==> (VerifyNext(cfg, c, last, pc, b, port).AbortMultipart? ==> !Logged(log, c))
    ensures PcSafe(cfg, log, NextBlobs(c, pc, b, port), c, VerifyNext(cfg, c, last, pc, b, port))
  {
    if pc.Assemble? {
    } else {
      assert NextBlobs(c, pc, b, port) == b;
    }
  }

  /** While asking or appending to the log. */
  lemma LogReadSafe(cfg: Config, log: Log, b: Blobs, c: Command, ask: Ask, last: bool, pc: Pc, port: Port, now: int)
    requires Logging(pc) && PcSafe(cfg, log, b, c, pc) && !pc.AppendCreate? && !pc.AppendUpdate?
    requires last ==> (LogNext(c, ask, last, pc, log, port, now).AbortMultipart? ==> !Logged(log, c))
    ensures PcSafe(cfg, log, b, c, LogNext(c, ask, last, pc, log, port, now))
  {
    FindBlobLogged(log, c);
  }

  lemma AppendSafe(cfg: Config, log: Log, b: Blobs, c: Command, ask: Ask, last: bool, pc: Pc, port: Port, now: int)
    requires FreshIds(cfg) && LogOk(cfg, log) && CommandOf(cfg, c.uploadId, c)
    requires PcSafe(cfg, log, b, c, pc) && (pc.AppendCreate? || pc.AppendUpdate?)
    requires last && LogNext(c, ask, last, pc, log, port, now).AbortMultipart? ==>
               !Logged(NextLog(c, ask, pc, log, port, now), c)
    ensures PcSafe(cfg, NextLog(c, ask, pc, log, port, now), b, c, LogNext(c, ask, last, pc, log, port, now))
  {
    if pc.AppendUpdate? {
      RememberedIsLogged(cfg, log, c);
    }
  }

  lemma RememberedIsLogged(cfg: Config, log: Log, c: Command)
    requires FreshIds(cfg) && LogOk(cfg, log) && CommandOf(cfg, c.uploadId, c)
    ensures SeenKey(DocKey(c), EventIdOf(c)) in log.seen ==> Logged(log, c)
  {
    if SeenKey(DocKey(c), EventIdOf(c)) in log.seen {
      IdNamesUpload(cfg, log, c);
    }
  }

  lemma OwnPcSafe(cfg: Config, log: Log, b: Blobs, rs: Records, c: Command, ask: Ask, last: bool, pc: Pc, port: Port,
                  now: int, next: Pc)
    requires FreshIds(cfg) && LogOk(cfg, log) && CommandOf(cfg, c.uploadId, c) && PcSafe(cfg, log, b, c, pc)
    requires Logged(log, c) ==> Sound(cfg, b, c)
    requires next == NextPc(cfg, c, ask, last, pc, log, b, rs, port, now)
    requires last && next.AbortMultipart? ==> !Logged(NextLog(c, ask, pc, log, port, now), c)
    ensures PcSafe(cfg, NextLog(c, ask, pc, log, port, now), NextBlobs(c, pc, b, port), c, next)
  {
    if Verifying(pc) {
      VerifySafe(cfg, log, b, c, last, pc, port);
    } else if pc.AppendCreate? || pc.AppendUpdate? {
      AppendSafe(cfg, log, b, c, ask, last, pc, port, now);
    } else if Logging(pc) {
      LogReadSafe(cfg, log, b, c, ask, last, pc, port, now);
    }
  }

  lemma OwnStepSafe(cfg: Config, w: World, pid: nat, port: Port, now: int, n: World, c: Command)
    requires FreshIds(cfg) && LogOk(cfg, w.log) && pid in w.procs && ProcSafe(cfg, w, w.procs[pid])
    requires c == cfg.commands[w.procs[pid].upload] && (Logged(w.log, c) ==> Sound(cfg, w.blobs, c))
    requires n == StepProc(cfg, w, pid, port, now)
    requires w.procs[pid].last && n.procs[pid].pc.AbortMultipart? ==> !Logged(n.log, c)
    ensures ProcSafe(cfg, n, n.procs[pid])
  {
    var p := w.procs[pid];
    OwnPcSafe(cfg, w.log, w.blobs, w.records, c, p.ask, p.last, p.pc, port, now, n.procs[pid].pc);
  }

  // ------------------------------------------------------------------ everybody else

  /** Two states agree about an upload's object, its closed multipart and its place in the log. */
  ghost predicate SameFor(a: World, b: World, d: Command) {
    && (Object(d) in a.blobs.objects <==> Object(d) in b.blobs.objects)
    && (Object(d) in a.blobs.objects ==> a.blobs.objects[Object(d)] == b.blobs.objects[Object(d)])
    && (Closed(a.blobs, d) ==> Closed(b.blobs, d))
    && (Logged(b.log, d) ==> Logged(a.log, d))
    && (forall f :: Says(a.log, d, f) ==> Says(b.log, d, f))
  }

  lemma SafeIfSame(cfg: Config, a: World, b: World, u: Id, pc: Pc)
    requires u in cfg.commands && SameFor(a, b, cfg.commands[u])
    ensures PcSafe(cfg, a.log, a.blobs, cfg.commands[u], pc) ==> PcSafe(cfg, b.log, b.blobs, cfg.commands[u], pc)
    ensures UploadSafe(cfg, a, u) && a.begun <= b.begun ==> UploadSafe(cfg, b, u)
  {
  }

  lemma PublishForOthers(log: Log, c: Command, e: DocumentEvent, x: Expect, d: Command)
    requires Names(e, c.uploadId) && d.uploadId != c.uploadId
    ensures Logged(Publish(log, e, x), d) ==> Logged(log, d)
    ensures forall f :: Says(log, d, f) ==> Says(Publish(log, e, x), d, f)
  {
    var xs, ys := Stream(log, DocKey(d)), Stream(Publish(log, e, x), DocKey(d));
    assert forall i :: 0 <= i < |ys| && Names(ys[i].event, d.uploadId) ==> i < |xs| && xs[i] == ys[i];
  }

  /** A delivery touches only its own upload's object, multipart and events. */
  lemma StepForOthers(cfg: Config, w: World, pid: nat, port: Port, now: int, d: Command)
    requires FreshIds(cfg) && pid in w.procs && w.procs[pid].upload in cfg.commands && w.procs[pid].upload != d.uploadId
    ensures SameFor(w, StepProc(cfg, w, pid, port, now), d)
  {
    var p := w.procs[pid];
    var c := cfg.commands[p.upload];
    if p.pc.AppendCreate? {
      PublishForOthers(w.log, c, CreateEvent(c, p.ask, p.pc, now), CreateOnly, d);
    } else if p.pc.AppendUpdate? {
      PublishForOthers(w.log, c, UpdateEvent(c, p.ask, p.pc), Exactly(p.pc.seqNo), d);
    }
  }

  /** The stepping upload stays safe: it appends only sound bytes and gives back only unlogged ones. */
  lemma OwnUploadSafe(cfg: Config, w: World, pid: nat, port: Port, now: int)
    requires FreshIds(cfg) && SerialInv(cfg, w) && pid in w.procs && w.procs[pid].upload in cfg.commands
    ensures UploadSafe(cfg, StepProc(cfg, w, pid, port, now), w.procs[pid].upload)
  {
    var p := w.procs[pid];
    var c := cfg.commands[p.upload];
    assert ProcSafe(cfg, w, p) && UploadSafe(cfg, w, p.upload);
    if p.pc.AppendCreate? {
      PublishSays(w.log, c, CreateEvent(c, p.ask, p.pc, now), CreateOnly, Facts(c, p.pc.checksum));
    } else if p.pc.AppendUpdate? {
      PublishSays(w.log, c, UpdateEvent(c, p.ask, p.pc), Exactly(p.pc.seqNo), Facts(c, p.pc.checksum));
    }
  }

  lemma PublishSays(log: Log, c: Command, e: DocumentEvent, x: Expect, facts: BlobFacts)
    requires KeyOf(e) == DocKey(c) && FactsOf(e.payload) == Some(facts)
    requires Logged(log, c) ==> Says(log, c, facts)
    ensures Says(Publish(log, e, x), c, facts)
  {
    var xs, ys := Stream(log, DocKey(c)), Stream(Publish(log, e, x), DocKey(c));
    assert forall i :: 0 <= i < |ys| ==> (i < |xs| && ys[i] == xs[i]) || ys[i].event == e;
  }

  lemma OtherUploadSafe(cfg: Config, w: World, pid: nat, port: Port, now: int, u: Id, n: World)
    requires FreshIds(cfg) && pid in w.procs && w.procs[pid].upload in cfg.commands && w.procs[pid].upload != u
    requires u in cfg.commands && UploadSafe(cfg, w, u)
    requires n == StepProc(cfg, w, pid, port, now)
    ensures UploadSafe(cfg, n, u)
  {
    StepForOthers(cfg, w, pid, port, now, cfg.commands[u]);
    SafeIfSame(cfg, w, n, u, LoadRecord);
  }

  lemma StepUploads(cfg: Config, w: World, pid: nat, port: Port, now: int, n: World)
    requires FreshIds(cfg) && SerialInv(cfg, w) && pid in w.procs && w.procs[pid].upload in cfg.commands
    requires n == StepProc(cfg, w, pid, port, now)
    ensures forall u :: u in cfg.commands ==> UploadSafe(cfg, n, u)
  {
    forall u | u in cfg.commands
      ensures UploadSafe(cfg, n, u)
    {
      if u == w.procs[pid].upload {
        OwnUploadSafe(cfg, w, pid, port, now);
      } else {
        OtherUploadSafe(cfg, w, pid, port, now, u, n);
      }
    }
  }

  lemma StepProcs(cfg: Config, w: World, pid: nat, port: Port, now: int, n: World)
    requires FreshIds(cfg) && SerialInv(cfg, w) && pid in w.procs && w.procs[pid].upload in cfg.commands
    requires n == StepProc(cfg, w, pid, port, now)
    ensures forall q :: q in n.procs && q != pid ==> ProcSafe(cfg, n, n.procs[q])
  {
    forall q | q in n.procs && q != pid
      ensures ProcSafe(cfg, n, n.procs[q])
    {
      OtherProcSafe(cfg, w, pid, port, now, q);
    }
  }

  lemma StepShape(cfg: Config, w: World, pid: nat, port: Port, now: int, n: World)
    requires OnePerUpload(w) && pid in w.procs && w.procs[pid].upload in cfg.commands
    requires n == StepProc(cfg, w, pid, port, now)
    ensures OnePerUpload(n)
  {
    StillOnePerUpload(w, pid, n);
  }

  lemma StepProcSerial(cfg: Config, w: World, pid: nat, port: Port, now: int, n: World)
    requires FreshIds(cfg) && LogOk(cfg, w.log) && SerialInv(cfg, w) && pid in w.procs
    requires w.procs[pid].upload in cfg.commands
    requires SafeFinal(cfg, w, Steps(pid, port, now))
    requires n == StepProc(cfg, w, pid, port, now)
    ensures OnePerUpload(n) && (forall u :: u in cfg.commands ==> UploadSafe(cfg, n, u))
    ensures forall p :: p in n.procs ==> ProcSafe(cfg, n, n.procs[p])
  {
    FinalKeepsLogged(cfg, w, pid, port, now, n);
    OwnSerialSafe(cfg, w, pid, port, now, n);
    StepUploads(cfg, w, pid, port, now, n);
    StepProcs(cfg, w, pid, port, now, n);
    StepShape(cfg, w, pid, port, now, n);
  }

  lemma FinalKeepsLogged(cfg: Config, w: World, pid: nat, port: Port, now: int, n: World)
    requires pid in w.procs && w.procs[pid].upload in cfg.commands && n == StepProc(cfg, w, pid, port, now)
    requires SafeFinal(cfg, w, Steps(pid, port, now))
    ensures w.procs[pid].last && n.procs[pid].pc.AbortMultipart? ==>
              !Logged(n.log, cfg.commands[w.procs[pid].upload])
  {
    assert n == Next(cfg, w, Steps(pid, port, now));
  }

  lemma OwnSerialSafe(cfg: Config, w: World, pid: nat, port: Port, now: int, n: World)
    requires FreshIds(cfg) && LogOk(cfg, w.log) && SerialInv(cfg, w)
    requires pid in w.procs && w.procs[pid].upload in cfg.commands && n == StepProc(cfg, w, pid, port, now)
    requires w.procs[pid].last && n.procs[pid].pc.AbortMultipart? ==>
               !Logged(n.log, cfg.commands[w.procs[pid].upload])
    ensures ProcSafe(cfg, n, n.procs[pid])
  {
    assert ProcSafe(cfg, w, w.procs[pid]) && UploadSafe(cfg, w, w.procs[pid].upload);
    OwnStepSafe(cfg, w, pid, port, now, n, cfg.commands[w.procs[pid].upload]);
  }

  lemma StillOnePerUpload(w: World, pid: nat, n: World)
    requires OnePerUpload(w) && pid in w.procs && n.procs.Keys == w.procs.Keys
    requires forall q :: q in w.procs && q != pid ==> n.procs[q] == w.procs[q]
    requires n.procs[pid].upload == w.procs[pid].upload && (!Active(w.procs[pid].pc) ==> !Active(n.procs[pid].pc))
    ensures OnePerUpload(n)
  {
  }

  lemma OtherProcSafe(cfg: Config, w: World, pid: nat, port: Port, now: int, q: nat)
    requires FreshIds(cfg) && SerialInv(cfg, w) && pid in w.procs && w.procs[pid].upload in cfg.commands
    requires q in w.procs && q != pid
    ensures ProcSafe(cfg, StepProc(cfg, w, pid, port, now), w.procs[q])
  {
    var n := StepProc(cfg, w, pid, port, now);
    assert ProcSafe(cfg, w, w.procs[q]);
    if w.procs[q].upload != w.procs[pid].upload {
      StepForOthers(cfg, w, pid, port, now, cfg.commands[w.procs[q].upload]);
      SafeIfSame(cfg, w, n, w.procs[q].upload, w.procs[q].pc);
    } else if !Active(w.procs[pid].pc) {
      assert n.log == w.log && n.blobs == w.blobs;
    }
  }

  /** A step of the environment leaves the object, the closed multipart and the log of every begun upload alone. */
  lemma EnvForAll(cfg: Config, w: World, a: Action, d: Command)
    requires FreshIds(cfg) && !a.Steps? && d.uploadId in w.begun
    ensures SameFor(w, Next(cfg, w, a), d) && w.begun <= Next(cfg, w, a).begun
  {
    assert forall k: Key :: Stream(Next(cfg, w, a).log, k) == Stream(w.log, k);
  }

  lemma EnvUpload(cfg: Config, w: World, a: Action, u: Id, n: World)
    requires FreshIds(cfg) && !a.Steps? && u in cfg.commands && UploadSafe(cfg, w, u) && n == Next(cfg, w, a)
    ensures UploadSafe(cfg, n, u)
  {
    assert Stream(n.log, DocKey(cfg.commands[u])) == Stream(w.log, DocKey(cfg.commands[u]));
    if Logged(w.log, cfg.commands[u]) {
      EnvForAll(cfg, w, a, cfg.commands[u]);
      SafeIfSame(cfg, w, n, u, LoadRecord);
    }
  }

  lemma EnvProc(cfg: Config, w: World, a: Action, p: Proc, n: World)
    requires FreshIds(cfg) && !a.Steps? && ProcSafe(cfg, w, p) && n == Next(cfg, w, a)
    ensures ProcSafe(cfg, n, p)
  {
    EnvForAll(cfg, w, a, cfg.commands[p.upload]);
    SafeIfSame(cfg, w, n, p.upload, p.pc);
  }

  /** Only a delivery or a crash changes who is running. */
  lemma EnvProcs(cfg: Config, w: World, a: Action, n: World)
    requires OnePerUpload(w) && SerialStep(w, a) && !a.Steps? && n == Next(cfg, w, a)
    ensures OnePerUpload(n)
    ensures forall q :: q in n.procs ==> if q in w.procs then n.procs[q] == w.procs[q]
                                         else n.procs[q].pc == LoadRecord && n.procs[q].upload in w.begun
                                              && n.procs[q].upload in cfg.commands && n.begun == w.begun
  {
  }

  lemma EnvSerial(cfg: Config, w: World, a: Action, n: World)
    requires FreshIds(cfg) && SerialInv(cfg, w) && SerialStep(w, a) && !a.Steps? && n == Next(cfg, w, a)
    ensures SerialInv(cfg, n)
  {
    forall u | u in cfg.commands
      ensures UploadSafe(cfg, n, u)
    {
      EnvUpload(cfg, w, a, u, n);
    }
    EnvProcs(cfg, w, a, n);
    forall q | q in n.procs
      ensures ProcSafe(cfg, n, n.procs[q])
    {
      if q in w.procs {
        EnvProc(cfg, w, a, w.procs[q], n);
      }
    }
  }

  lemma StepSerial(cfg: Config, w: World, a: Action)
    requires FreshIds(cfg) && Inv(cfg, w) && SerialInv(cfg, w) && SerialStep(w, a) && SafeFinal(cfg, w, a)
    ensures SerialInv(cfg, Next(cfg, w, a))
  {
    if a.Steps? {
      if a.pid in w.procs {
        assert ProcSafe(cfg, w, w.procs[a.pid]);
        StepProcSerial(cfg, w, a.pid, a.port, a.now, Next(cfg, w, a));
      }
    } else {
      EnvSerial(cfg, w, a, Next(cfg, w, a));
    }
  }

  lemma {:induction false} RunSerial(cfg: Config, acts: seq<Action>)
    requires FreshIds(cfg) && SerialRun(cfg, acts)
    ensures SerialInv(cfg, Run(cfg, acts))
  {
    if acts != [] {
      var n := |acts| - 1;
      var init := acts[..n];
      RunSerial(cfg, init);
      RunInv(cfg, init);
      StepSerial(cfg, Run(cfg, init), acts[n]);
    }
  }

  /** The stored object is what the event says, and passed verification. */
  ghost predicate BytesAreThere(cfg: Config, w: World, k: Key, i: nat)
    requires i < |Stream(w.log, k)|
  {
    var facts := FactsOf(Stream(w.log, k)[i].event.payload);
    && facts.Some? && facts.value.blobRef in cfg.commands
    && var c := cfg.commands[facts.value.blobRef];
       && DocKey(c) == k && Object(c) in w.blobs.objects
       && var bytes := w.blobs.objects[Object(c)];
          && |bytes| == facts.value.byteSize == c.declaredSize
          && facts.value.checksum == Checksum(cfg, bytes)
          && cfg.verify.clean(bytes) && cfg.verify.accepts(|bytes|, Prefix(bytes), c)
  }

  /** Theorem: with one delivery in flight per upload, port failures, lost replies, crashes and record expiry
      anywhere, and other uploads interleaving freely, the object a logged event names is in the store in every
      state, with the size and the checksum the event states, an accepting validator and a clean verdict. */
  lemma LoggedBytesSurvive(cfg: Config, acts: seq<Action>, k: Key, i: nat)
    requires FreshIds(cfg) && SerialRun(cfg, acts)
    requires i < |Stream(Run(cfg, acts).log, k)|
    ensures BytesAreThere(cfg, Run(cfg, acts), k, i)
  {
    var w := Run(cfg, acts);
    RunInv(cfg, acts);
    RunSerial(cfg, acts);
    assert StreamOk(cfg, k, Stream(w.log, k), w.log.head);
    assert EntryOk(cfg, k, i, Stream(w.log, k)[i]);
    var u := BlobRef(Stream(w.log, k)[i].event.payload).value;
    assert Logged(w.log, cfg.commands[u]);
    assert UploadSafe(cfg, w, u);
  }

  // ------------------------------------------------------------------ why the conditions are there

  lemma GivesBack(cfg: Config, w: World, pid: nat, now: int)
    requires pid in w.procs && w.procs[pid].upload in cfg.commands && w.procs[pid].pc.AbortMultipart?
    ensures var n := Next(cfg, Next(cfg, w, Steps(pid, Works, now)), Steps(pid, Works, now));
            n.log == w.log && Object(cfg.commands[w.procs[pid].upload]) !in n.blobs.objects
  {
    var m := Next(cfg, w, Steps(pid, Works, now));
    assert m.procs[pid].pc.DeleteObject? && m.procs[pid].upload == w.procs[pid].upload;
  }

  predicate LoggedWithoutBytes(w: World, c: Command) {
    Logged(w.log, c) && Object(c) !in w.blobs.objects
  }

  /** `SafeFinal` is exact: wherever it fails, two more working calls of that delivery delete bytes a logged event
      names. */
  lemma UnsafeFinalDestroys(cfg: Config, w: World, a: Action, now: int)
    requires !SafeFinal(cfg, w, a)
    ensures a.Steps? && a.pid in w.procs && w.procs[a.pid].upload in cfg.commands
    ensures var c := cfg.commands[w.procs[a.pid].upload];
            var n := Next(cfg, Next(cfg, Next(cfg, w, a), Steps(a.pid, Works, now)), Steps(a.pid, Works, now));
            LoggedWithoutBytes(n, c)
  {
    GivesBack(cfg, Next(cfg, w, a), a.pid, now);
  }

  /** The delivery's next call is an append that lands. */
  predicate AboutToLand(log: Log, c: Command, ask: Ask, pc: Pc, now: int) {
    || (pc.AppendCreate? && Lands(log, CreateEvent(c, ask, pc, now), CreateOnly))
    || (pc.AppendUpdate? && Lands(log, UpdateEvent(c, ask, pc), Exactly(pc.seqNo)))
  }

  /** One delivery per upload is needed too: a delivery that found no event and is giving the bytes back, overlapping
      one that appends, leaves a logged event without its bytes. */
  lemma OverlapDestroys(cfg: Config, w: World, p: nat, q: nat, now: int)
    requires p in w.procs && q in w.procs && p != q && w.procs[p].upload == w.procs[q].upload
    requires FreshIds(cfg) && w.procs[p].upload in cfg.commands
    requires AboutToLand(w.log, cfg.commands[w.procs[p].upload], w.procs[p].ask, w.procs[p].pc, now)
    requires w.procs[q].pc.AbortMultipart?
    ensures var c := cfg.commands[w.procs[p].upload];
            var n := Next(cfg, Next(cfg, Next(cfg, w, Steps(p, Works, now)), Steps(q, Works, now)),
                          Steps(q, Works, now));
            LoggedWithoutBytes(n, c)
  {
    var c := cfg.commands[w.procs[p].upload];
    var ask, pc := w.procs[p].ask, w.procs[p].pc;
    var m := Next(cfg, w, Steps(p, Works, now));
    if pc.AppendCreate? {
      LandedIsLogged(w.log, c, CreateEvent(c, ask, pc, now), CreateOnly);
    } else {
      LandedIsLogged(w.log, c, UpdateEvent(c, ask, pc), Exactly(pc.seqNo));
    }
    assert m.procs[q] == w.procs[q];
    GivesBack(cfg, m, q, now);
  }
}
