/** Serial deliveries of a replace upload: one event even after the dedupe table forgets, and one answer
    for every redelivery. */
module WorkerAnswers {
  import opened Wrappers
  import opened Domain
  import opened Fold
  import opened Subject
  import opened EventStore
  import opened UploadRecord
  import opened BlobStore
  import opened Worker
  import opened WorkerLog
  import opened WorkerUnique
  import opened WorkerSerial

  // ------------------------------------------------------------------ what a delivery alone on its upload knows

  /** Between the redelivery guard's read of the history and the append it allows. */
  predicate PastGuard(pc: Pc) {
    pc.LastForUpdate? || pc.AppendUpdate?
  }

  /** A delivery past its guard is not logged, so its append is never a duplicate. */
  predicate Alone(log: Log, c: Command, pc: Pc) {
    (PastGuard(pc) ==> !Logged(log, c)) && !pc.LastAfterDuplicate?
  }

  ghost predicate AloneInv(cfg: Config, w: World) {
    OnePerUpload(w) && forall p :: p in w.procs ==> AloneProc(cfg, w.log, w.procs[p])
  }

  predicate AloneProc(cfg: Config, log: Log, p: Proc) {
    p.upload in cfg.commands && Alone(log, cfg.commands[p.upload], p.pc)
  }

  lemma OwnAlone(cfg: Config, log: Log, b: Blobs, rs: Records, c: Command, ask: Ask, last: bool, pc: Pc, port: Port,
                 now: int, next: Pc)
    requires FreshIds(cfg) && LogOk(cfg, log) && CommandOf(cfg, c.uploadId, c)
    requires PcOk(cfg, log, c, pc) && Alone(log, c, pc) && next == NextPc(cfg, c, ask, last, pc, log, b, rs, port, now)
    ensures Alone(NextLog(c, ask, pc, log, port, now), c, next)
  {
    if Verifying(pc) {
      VerifyAlone(cfg, log, b, c, last, pc, port);
    } else if pc.AppendCreate? || pc.AppendUpdate? {
      AppendAlone(cfg, log, c, ask, last, pc, port, now);
    } else if Logging(pc) {
      ReadAlone(log, c, ask, last, pc, port, now);
    } else {
      RecordAlone(log, c, last, pc, rs, port, now);
    }
  }

  lemma VerifyAlone(cfg: Config, log: Log, b: Blobs, c: Command, last: bool, pc: Pc, port: Port)
    requires Verifying(pc)
    ensures Alone(log, c, VerifyNext(cfg, c, last, pc, b, port))
  {
  }

  lemma AppendAlone(cfg: Config, log: Log, c: Command, ask: Ask, last: bool, pc: Pc, port: Port, now: int)
    requires FreshIds(cfg) && LogOk(cfg, log) && CommandOf(cfg, c.uploadId, c) && PcOk(cfg, log, c, pc)
    requires Alone(log, c, pc) && (pc.AppendCreate? || pc.AppendUpdate?)
    ensures Alone(NextLog(c, ask, pc, log, port, now), c, LogNext(c, ask, last, pc, log, port, now))
  {
    if pc.AppendUpdate? {
      RememberedIsLogged(cfg, log, c);
    }
  }

  lemma ReadAlone(log: Log, c: Command, ask: Ask, last: bool, pc: Pc, port: Port, now: int)
    requires Logging(pc) && !pc.AppendCreate? && !pc.AppendUpdate? && Alone(log, c, pc)
    ensures Alone(log, c, LogNext(c, ask, last, pc, log, port, now))
  {
    FindBlobLogged(log, c);
  }

  lemma RecordAlone(log: Log, c: Command, last: bool, pc: Pc, rs: Records, port: Port, now: int)
    requires !Verifying(pc) && !Logging(pc)
    ensures Alone(log, c, RecordNext(c, last, pc, rs, port, now))
  {
  }

  lemma OtherAlone(cfg: Config, w: World, pid: nat, port: Port, now: int, q: nat, n: World)
    requires FreshIds(cfg) && AloneInv(cfg, w) && pid in w.procs && w.procs[pid].upload in cfg.commands
    requires q in w.procs && q != pid && n == StepProc(cfg, w, pid, port, now)
    ensures AloneProc(cfg, n.log, w.procs[q])
  {
    assert AloneProc(cfg, w.log, w.procs[q]);
    if w.procs[q].upload != w.procs[pid].upload {
      StepForOthers(cfg, w, pid, port, now, cfg.commands[w.procs[q].upload]);
    } else if w.procs[pid].pc.Done? {
      assert n.log == w.log;
    }
  }

  lemma StepProcAlone(cfg: Config, w: World, pid: nat, port: Port, now: int, n: World)
    requires FreshIds(cfg) && Inv(cfg, w) && AloneInv(cfg, w) && pid in w.procs && w.procs[pid].upload in cfg.commands
    requires n == StepProc(cfg, w, pid, port, now)
    ensures AloneInv(cfg, n)
  {
    var p := w.procs[pid];
    assert ProcOk(cfg, w.log, p) && AloneProc(cfg, w.log, p);
    StepShape(cfg, w, pid, port, now, n);
    OwnAlone(cfg, w.log, w.blobs, w.records, cfg.commands[p.upload], p.ask, p.last, p.pc, port, now, n.procs[pid].pc);
    forall q | q in n.procs && q != pid
      ensures AloneProc(cfg, n.log, n.procs[q])
    {
      OtherAlone(cfg, w, pid, port, now, q, n);
    }
  }

  lemma StepAlone(cfg: Config, w: World, a: Action, n: World)
    requires FreshIds(cfg) && Inv(cfg, w) && AloneInv(cfg, w) && SerialStep(w, a) && n == Next(cfg, w, a)
    ensures AloneInv(cfg, n)
  {
    if a.Steps? {
      if a.pid in w.procs {
        assert AloneProc(cfg, w.log, w.procs[a.pid]);
        StepProcAlone(cfg, w, a.pid, a.port, a.now, n);
      }
    } else {
      EnvAlone(cfg, w, a, n);
    }
  }

  lemma EnvAlone(cfg: Config, w: World, a: Action, n: World)
    requires AloneInv(cfg, w) && SerialStep(w, a) && !a.Steps? && n == Next(cfg, w, a)
    ensures AloneInv(cfg, n)
  {
    EnvProcs(cfg, w, a, n);
    assert forall k: Key :: Stream(n.log, k) == Stream(w.log, k);
    forall q | q in n.procs
      ensures AloneProc(cfg, n.log, n.procs[q])
    {
      if q in w.procs {
        assert AloneProc(cfg, w.log, w.procs[q]);
      }
    }
  }

  // ------------------------------------------------------------------ one event, with any forgetting

  ghost predicate Unique(log: Log) {
    forall k: Key :: AtMostOnce(Stream(log, k))
  }

  lemma SerialAppend(cfg: Config, log: Log, c: Command, ask: Ask, pc: Pc, port: Port, now: int)
    requires FreshIds(cfg) && LogOk(cfg, log) && Unique(log) && CommandOf(cfg, c.uploadId, c)
    requires PcOk(cfg, log, c, pc) && Alone(log, c, pc)
    ensures Unique(NextLog(c, ask, pc, log, port, now))
  {
    forall k: Key
      ensures AtMostOnce(Stream(NextLog(c, ask, pc, log, port, now), k))
    {
      if pc.AppendCreate? {
        if Lands(log, CreateEvent(c, ask, pc, now), CreateOnly) {
          CreateEntryOk(cfg, log, c, ask, pc, now);
        }
        PublishUnique(log, c, CreateEvent(c, ask, pc, now), CreateOnly, k);
      } else if pc.AppendUpdate? {
        PublishUnique(log, c, UpdateEvent(c, ask, pc), Exactly(pc.seqNo), k);
      }
    }
  }

  lemma StepUniqueSerial(cfg: Config, w: World, a: Action, n: World)
    requires FreshIds(cfg) && Inv(cfg, w) && AloneInv(cfg, w) && Unique(w.log) && n == Next(cfg, w, a)
    ensures Unique(n.log)
  {
    if a.Steps? && a.pid in w.procs {
      var p := w.procs[a.pid];
      assert ProcOk(cfg, w.log, p) && AloneProc(cfg, w.log, p);
      SerialAppend(cfg, w.log, cfg.commands[p.upload], p.ask, p.pc, a.port, a.now);
    } else {
      assert forall k: Key :: Stream(n.log, k) == Stream(w.log, k);
    }
  }

  // ------------------------------------------------------------------ one answer

  /** `(version, superseded)` is what the upload's event says: the version it got, and whether the request that led
      to it named a version other than the one directly before it. */
  predicate AnswerAt(log: Log, c: Command, version: nat, superseded: bool, i: nat) {
    && i < |Stream(log, DocKey(c))| && Names(Stream(log, DocKey(c))[i].event, c.uploadId)
    && version == i + 1 && superseded == SupersededFlag(Stream(log, DocKey(c))[i].event)
  }

  ghost predicate Answer(log: Log, c: Command, version: nat, superseded: bool) {
    exists i: nat :: AnswerAt(log, c, version, superseded, i)
  }

  /** The version alone. */
  ghost predicate Named(log: Log, c: Command, version: nat) {
    Answer(log, c, version, true) || Answer(log, c, version, false)
  }

  lemma AnswerGrows(a: Log, b: Log, c: Command, version: nat, superseded: bool)
    requires Grows(a, b) && Answer(a, c, version, superseded)
    ensures Answer(b, c, version, superseded)
  {
    assert Stream(a, DocKey(c)) <= Stream(b, DocKey(c));
    var i: nat :| AnswerAt(a, c, version, superseded, i);
    assert AnswerAt(b, c, version, superseded, i);
  }

  ghost predicate StatusAnswers(log: Log, c: Command, s: UploadStatus) {
    c.mode.Replace? && s.Accepted? ==> Answer(log, c, s.version, s.superseded)
  }

  ghost predicate PcAnswers(log: Log, c: Command, pc: Pc) {
    match pc
    case Recording(status, _) => StatusAnswers(log, c, status)
    case Done(AcceptedOutcome(_, version, superseded), expired) =>
      // A record that expired first answers from the log alone, and always says "not superseded".
      c.mode.Replace? ==> if expired then !superseded && Named(log, c, version) else Answer(log, c, version, superseded)
    case _ => true
  }

  ghost predicate AnswersInv(cfg: Config, w: World) {
    && (forall u :: u in cfg.commands ==> RecordAnswers(w, cfg.commands[u]))
    && forall p :: p in w.procs && w.procs[p].upload in cfg.commands ==>
         PcAnswers(w.log, cfg.commands[w.procs[p].upload], w.procs[p].pc)
  }

  ghost predicate RecordAnswers(w: World, c: Command) {
    Record(c) in w.records ==> StatusAnswers(w.log, c, w.records[Record(c)].state.status)
  }

  /** The event found by the redelivery guard says what the first run said. */
  lemma GuardAnswers(cfg: Config, log: Log, c: Command)
    requires LogOk(cfg, log) && CommandOf(cfg, c.uploadId, c) && c.mode.Replace?
    requires FindBlob(Stream(log, DocKey(c)), c.uploadId).Some?
    ensures var e := FindBlob(Stream(log, DocKey(c)), c.uploadId).value.event;
            Answer(log, c, e.version, SupersededFlag(e))
  {
    var xs := Stream(log, DocKey(c));
    FindBlobFinds(xs, c.uploadId);
    var x := FindBlob(xs, c.uploadId).value;
    var i :| 0 <= i < |xs| && xs[i] == x;
    assert StreamOk(cfg, DocKey(c), xs, log.head);
    assert EntryOk(cfg, DocKey(c), i, xs[i]);
    assert AnswerAt(log, c, x.event.version, SupersededFlag(x.event), i);
  }

  lemma UpdateAnswers(cfg: Config, log: Log, c: Command, ask: Ask, last: bool, pc: Pc, port: Port, now: int)
    requires FreshIds(cfg) && LogOk(cfg, log) && CommandOf(cfg, c.uploadId, c)
    requires PcOk(cfg, log, c, pc) && Alone(log, c, pc) && pc.AppendUpdate?
    ensures PcAnswers(NextLog(c, ask, pc, log, port, now), c, LogNext(c, ask, last, pc, log, port, now))
  {
    RememberedIsLogged(cfg, log, c);
    var e := UpdateEvent(c, ask, pc);
    if port.Works? && Lands(log, e, Exactly(pc.seqNo)) {
      UpdateEntryOk(cfg, log, c, ask, pc);
      var n := Publish(log, e, Exactly(pc.seqNo));
      assert AnswerAt(n, c, e.version, Differs(ask.ifMatch, e.version), |Stream(log, DocKey(c))|);
    }
  }

  lemma VerifyAnswers(cfg: Config, log: Log, b: Blobs, c: Command, last: bool, pc: Pc, port: Port)
    requires Verifying(pc)
    ensures PcAnswers(log, c, VerifyNext(cfg, c, last, pc, b, port))
  {
  }

  lemma ReadAnswers(cfg: Config, log: Log, c: Command, ask: Ask, last: bool, pc: Pc, port: Port, now: int)
    requires LogOk(cfg, log) && CommandOf(cfg, c.uploadId, c)
    requires PcOk(cfg, log, c, pc) && Alone(log, c, pc)
    requires Logging(pc) && !pc.AppendUpdate? && c.mode.Replace?
    ensures PcAnswers(log, c, LogNext(c, ask, last, pc, log, port, now))
  {
    if FindBlob(Stream(log, DocKey(c)), c.uploadId).Some? {
      GuardAnswers(cfg, log, c);
    }
  }

  lemma RecordStepAnswers(w: World, c: Command, last: bool, pc: Pc, port: Port, now: int)
    requires !Verifying(pc) && !Logging(pc) && RecordAnswers(w, c) && PcAnswers(w.log, c, pc)
    ensures PcAnswers(w.log, c, RecordNext(c, last, pc, w.records, port, now))
  {
  }

  lemma OwnPcAnswers(cfg: Config, w: World, c: Command, ask: Ask, last: bool, pc: Pc, port: Port, now: int, next: Pc)
    requires FreshIds(cfg) && LogOk(cfg, w.log) && CommandOf(cfg, c.uploadId, c)
    requires PcOk(cfg, w.log, c, pc) && Alone(w.log, c, pc)
    requires RecordAnswers(w, c) && PcAnswers(w.log, c, pc)
    requires next == NextPc(cfg, c, ask, last, pc, w.log, w.blobs, w.records, port, now)
    ensures PcAnswers(NextLog(c, ask, pc, w.log, port, now), c, next)
  {
    if Verifying(pc) {
      VerifyAnswers(cfg, w.log, w.blobs, c, last, pc, port);
    } else if pc.AppendUpdate? {
      UpdateAnswers(cfg, w.log, c, ask, last, pc, port, now);
    } else if !Logging(pc) {
      RecordStepAnswers(w, c, last, pc, port, now);
    } else if c.mode.Replace? {
      ReadAnswers(cfg, w.log, c, ask, last, pc, port, now);
    }
  }

  lemma PcAnswersGrow(a: Log, b: Log, c: Command, pc: Pc)
    requires Grows(a, b) && PcAnswers(a, c, pc)
    ensures PcAnswers(b, c, pc)
  {
    if c.mode.Replace? {
      match pc
      case Recording(Accepted(v, s), _) => AnswerGrows(a, b, c, v, s);
      case Done(AcceptedOutcome(_, v, s), expired) =>
        AnswerGrows(a, b, c, v, if expired then Answer(a, c, v, true) else s);
      case _ =>
    }
  }

  lemma RecordAnswersGrow(a: World, b: World, c: Command)
    requires Grows(a.log, b.log) && RecordAnswers(a, c)
    requires Record(c) in b.records ==>
               (Record(c) in a.records && b.records[Record(c)].state.status == a.records[Record(c)].state.status)
               || StatusAnswers(b.log, c, b.records[Record(c)].state.status)
    ensures RecordAnswers(b, c)
  {
    if Record(c) in b.records && Record(c) in a.records {
      var s := a.records[Record(c)].state.status;
      if c.mode.Replace? && s.Accepted? {
        AnswerGrows(a.log, b.log, c, s.version, s.superseded);
      }
    }
  }

  lemma StepProcAnswers(cfg: Config, w: World, pid: nat, port: Port, now: int, n: World)
    requires FreshIds(cfg) && Inv(cfg, w) && AloneInv(cfg, w) && AnswersInv(cfg, w)
    requires pid in w.procs && w.procs[pid].upload in cfg.commands && n == StepProc(cfg, w, pid, port, now)
    requires Grows(w.log, n.log)
    ensures forall p :: p in n.procs && n.procs[p].upload in cfg.commands ==>
              PcAnswers(n.log, cfg.commands[n.procs[p].upload], n.procs[p].pc)
  {
    var p := w.procs[pid];
    assert ProcOk(cfg, w.log, p) && AloneProc(cfg, w.log, p);
    forall q | q in n.procs && n.procs[q].upload in cfg.commands
      ensures PcAnswers(n.log, cfg.commands[n.procs[q].upload], n.procs[q].pc)
    {
      if q == pid {
        OwnPcAnswers(cfg, w, cfg.commands[p.upload], p.ask, p.last, p.pc, port, now, n.procs[pid].pc);
      } else {
        PcAnswersGrow(w.log, n.log, cfg.commands[w.procs[q].upload], w.procs[q].pc);
      }
    }
  }

  lemma StepProcRecord(cfg: Config, w: World, pid: nat, port: Port, now: int, n: World, u: Id)
    requires FreshIds(cfg) && Inv(cfg, w) && AnswersInv(cfg, w) && u in cfg.commands
    requires pid in w.procs && w.procs[pid].upload in cfg.commands && n == StepProc(cfg, w, pid, port, now)
    requires Grows(w.log, n.log)
    ensures RecordAnswers(n, cfg.commands[u])
  {
    var p := w.procs[pid];
    var c := cfg.commands[p.upload];
    assert ProcOk(cfg, w.log, p) && RecordAnswers(w, cfg.commands[u]);
    if p.pc.Recording? {
      PcAnswersGrow(w.log, n.log, c, p.pc);
    }
    RecordAnswersGrow(w, n, cfg.commands[u]);
  }

  lemma EnvKeepsProcs(cfg: Config, w: World, a: Action, n: World)
    requires !a.Steps? && n == Next(cfg, w, a)
    ensures forall q :: q in n.procs ==> if q in w.procs then n.procs[q] == w.procs[q] else n.procs[q].pc == LoadRecord
  {
  }

  lemma EnvAnswers(cfg: Config, w: World, a: Action, n: World)
    requires FreshIds(cfg) && Inv(cfg, w) && AnswersInv(cfg, w) && !a.Steps? && n == Next(cfg, w, a)
    requires Grows(w.log, n.log)
    ensures forall u :: u in cfg.commands ==> RecordAnswers(n, cfg.commands[u])
    ensures forall q :: q in n.procs && n.procs[q].upload in cfg.commands ==>
              PcAnswers(n.log, cfg.commands[n.procs[q].upload], n.procs[q].pc)
  {
    forall u | u in cfg.commands
      ensures RecordAnswers(n, cfg.commands[u])
    {
      EnvRecord(cfg, w, a, n, u);
    }
    EnvKeepsProcs(cfg, w, a, n);
    EnvPcAnswers(cfg, w, n);
  }

  lemma EnvPcAnswers(cfg: Config, w: World, n: World)
    requires AnswersInv(cfg, w) && Grows(w.log, n.log)
    requires forall q :: q in n.procs ==> if q in w.procs then n.procs[q] == w.procs[q] else n.procs[q].pc == LoadRecord
    ensures forall q :: q in n.procs && n.procs[q].upload in cfg.commands ==>
              PcAnswers(n.log, cfg.commands[n.procs[q].upload], n.procs[q].pc)
  {
    forall q | q in n.procs && n.procs[q].upload in cfg.commands
      ensures PcAnswers(n.log, cfg.commands[n.procs[q].upload], n.procs[q].pc)
    {
      if q in w.procs {
        PcAnswersGrow(w.log, n.log, cfg.commands[w.procs[q].upload], w.procs[q].pc);
      }
    }
  }

  lemma EnvRecord(cfg: Config, w: World, a: Action, n: World, u: Id)
    requires FreshIds(cfg) && Inv(cfg, w) && u in cfg.commands && RecordAnswers(w, cfg.commands[u])
    requires !a.Steps? && n == Next(cfg, w, a) && Grows(w.log, n.log)
    ensures RecordAnswers(n, cfg.commands[u])
  {
    if a.ApiSteps? && a.pid in w.api {
      assert ApiOk(cfg, w.api[a.pid]);
    }
    RecordAnswersGrow(w, n, cfg.commands[u]);
  }

  lemma StepAnswers(cfg: Config, w: World, a: Action, n: World)
    requires FreshIds(cfg) && Inv(cfg, w) && AloneInv(cfg, w) && AnswersInv(cfg, w) && n == Next(cfg, w, a)
    ensures AnswersInv(cfg, n)
  {
    StepInv(cfg, w, a);
    if a.Steps? {
      if a.pid in w.procs {
        assert ProcOk(cfg, w.log, w.procs[a.pid]);
        StepProcAnswers(cfg, w, a.pid, a.port, a.now, n);
        forall u | u in cfg.commands
          ensures RecordAnswers(n, cfg.commands[u])
        {
          StepProcRecord(cfg, w, a.pid, a.port, a.now, n, u);
        }
      }
    } else {
      EnvAnswers(cfg, w, a, n);
    }
  }

  lemma {:induction false} RunAnswers(cfg: Config, acts: seq<Action>)
    requires FreshIds(cfg) && OneInFlight(cfg, acts)
    ensures AloneInv(cfg, Run(cfg, acts)) && Unique(Run(cfg, acts).log) && AnswersInv(cfg, Run(cfg, acts))
  {
    if acts != [] {
      var n := |acts| - 1;
      var init := acts[..n];
      RunAnswers(cfg, init);
      RunInv(cfg, init);
      StepAlone(cfg, Run(cfg, init), acts[n], Run(cfg, acts));
      StepUniqueSerial(cfg, Run(cfg, init), acts[n], Run(cfg, acts));
      StepAnswers(cfg, Run(cfg, init), acts[n], Run(cfg, acts));
    }
  }

  // ------------------------------------------------------------------ theorems

  /** With one delivery in flight per upload, every upload contributes at most one event, whatever the dedupe table
      forgets and whenever. */
  lemma OneEventWhenSerial(cfg: Config, acts: seq<Action>, u: Id, k: Key, i: nat, l: Key, j: nat)
    requires FreshIds(cfg) && OneInFlight(cfg, acts)
    requires At(Run(cfg, acts).log, u, k, i) && At(Run(cfg, acts).log, u, l, j)
    ensures k == l && i == j
  {
    var log := Run(cfg, acts).log;
    RunInv(cfg, acts);
    RunAnswers(cfg, acts);
    PlaceIsItsDocument(cfg, log, u, k, i);
    PlaceIsItsDocument(cfg, log, u, l, j);
    assert AtMostOnce(Stream(log, k));
  }

  /** An `accepted` answer of a replace delivery that did not come from the expired path. */
  predicate Answered(w: World, pid: nat, u: Id, version: nat, superseded: bool) {
    && pid in w.procs && w.procs[pid].upload == u && w.procs[pid].pc.Done? && !w.procs[pid].pc.expired
    && w.procs[pid].pc.outcome.AcceptedOutcome?
    && w.procs[pid].pc.outcome.version == version && w.procs[pid].pc.outcome.superseded == superseded
  }

  /** The version the request behind an event named. */
  function BasedOn(e: DocumentEvent): Option<nat> {
    if e.payload.DocumentBlobValidated? then e.payload.basedOnVersion else None
  }

  /** The version of the upload's own event, and whether the request behind it named a version other than the one
      directly before it. */
  predicate OwnVersion(xs: seq<Entry>, c: Command, version: nat, superseded: bool) {
    && IsOwn(xs, c, version)
    && superseded == (BasedOn(xs[version - 1].event).Some?
                      && BasedOn(xs[version - 1].event).value != xs[version - 2].event.version)
  }

  predicate IsOwn(xs: seq<Entry>, c: Command, version: nat) {
    && 2 <= version <= |xs| && Names(xs[version - 1].event, c.uploadId)
    && xs[version - 1].event.version == version
  }

  lemma AnswerMeans(cfg: Config, log: Log, c: Command, version: nat, superseded: bool)
    requires LogOk(cfg, log) && CommandOf(cfg, c.uploadId, c) && c.mode.Replace? && Answer(log, c, version, superseded)
    ensures OwnVersion(Stream(log, DocKey(c)), c, version, superseded)
  {
    var i: nat :| AnswerAt(log, c, version, superseded, i);
    var xs := Stream(log, DocKey(c));
    assert StreamOk(cfg, DocKey(c), xs, log.head);
    assert EntryOk(cfg, DocKey(c), i, xs[i]);
    assert i > 0 && EntryOk(cfg, DocKey(c), i - 1, xs[i - 1]);
  }

  /** Theorem: what such an answer says. */
  lemma AnswerIsTheEvents(cfg: Config, acts: seq<Action>, u: Id, pid: nat, version: nat, superseded: bool)
    requires FreshIds(cfg) && OneInFlight(cfg, acts) && u in cfg.commands && cfg.commands[u].mode.Replace?
    requires Answered(Run(cfg, acts), pid, u, version, superseded)
    ensures OwnVersion(Stream(Run(cfg, acts).log, DocKey(cfg.commands[u])), cfg.commands[u], version, superseded)
  {
    var w := Run(cfg, acts);
    RunInv(cfg, acts);
    RunAnswers(cfg, acts);
    DoneAnswers(cfg, w, pid, u, version, superseded);
    AnswerMeans(cfg, w.log, cfg.commands[u], version, superseded);
  }

  /** An `accepted` answer given after the record had expired. */
  predicate AnsweredExpired(w: World, pid: nat, u: Id, version: nat, superseded: bool) {
    && pid in w.procs && w.procs[pid].upload == u && w.procs[pid].pc.Done? && w.procs[pid].pc.expired
    && w.procs[pid].pc.outcome.AcceptedOutcome?
    && w.procs[pid].pc.outcome.version == version && w.procs[pid].pc.outcome.superseded == superseded
  }

  /** Theorem: the expired path names the upload's own version too. Its flag is always false, so it is right exactly
      when the request behind the upload's event named no version or the one directly before it. */
  lemma ExpiredAnswerIs(cfg: Config, acts: seq<Action>, u: Id, pid: nat, version: nat, superseded: bool)
    requires FreshIds(cfg) && OneInFlight(cfg, acts) && u in cfg.commands && cfg.commands[u].mode.Replace?
    requires AnsweredExpired(Run(cfg, acts), pid, u, version, superseded)
    ensures var c := cfg.commands[u];
            var xs := Stream(Run(cfg, acts).log, DocKey(c));
            && !superseded && IsOwn(xs, c, version)
            && var based := BasedOn(xs[version - 1].event);
               OwnVersion(xs, c, version, superseded) <==> based.None? || based.value == xs[version - 2].event.version
  {
    var w := Run(cfg, acts);
    var c := cfg.commands[u];
    RunInv(cfg, acts);
    RunAnswers(cfg, acts);
    assert PcAnswers(w.log, c, w.procs[pid].pc);
    AnswerMeans(cfg, w.log, c, version, Answer(w.log, c, version, true));
  }

  lemma {:induction false} RunGrows(cfg: Config, acts: seq<Action>, more: seq<Action>)
    requires FreshIds(cfg)
    ensures Grows(Run(cfg, acts).log, Run(cfg, acts + more).log)
  {
    if more == [] {
      assert acts + more == acts;
    } else {
      var n := |more| - 1;
      var mid := acts + more[..n];
      assert (acts + more)[..|acts + more| - 1] == mid;
      RunGrows(cfg, acts, more[..n]);
      RunInv(cfg, mid);
      StepInv(cfg, Run(cfg, mid), more[n]);
      GrowsTrans(Run(cfg, acts).log, Run(cfg, mid).log, Run(cfg, acts + more).log);
    }
  }

  lemma SameAnswer(a: Log, b: Log, c: Command, v: nat, s: bool, v': nat, s': bool)
    requires Grows(a, b) && Unique(b) && Answer(a, c, v, s) && Answer(b, c, v', s')
    ensures v == v' && s == s'
  {
    AnswerGrows(a, b, c, v, s);
    var i: nat :| AnswerAt(b, c, v, s, i);
    var j: nat :| AnswerAt(b, c, v', s', j);
    assert AtMostOnce(Stream(b, DocKey(c)));
  }

  lemma {:induction false} EarlierInFlight(cfg: Config, acts: seq<Action>, more: seq<Action>)
    requires OneInFlight(cfg, acts + more)
    ensures OneInFlight(cfg, acts)
    decreases |more|
  {
    if more == [] {
      assert acts + more == acts;
    } else {
      var all, init := acts + more, more[..|more| - 1];
      assert all[..|all| - 1] == acts + init;
      EarlierInFlight(cfg, acts, init);
    }
  }

  /** Theorem: however many events land in between, every later delivery of a replace upload answered from the recorded
      status, the redelivery guard or its own append gives the same version and flag. */
  lemma RedeliveryRepeatsAnswer(cfg: Config, acts: seq<Action>, more: seq<Action>, u: Id,
                                p: nat, v: nat, s: bool, q: nat, v': nat, s': bool)
    requires FreshIds(cfg) && OneInFlight(cfg, acts + more) && u in cfg.commands && cfg.commands[u].mode.Replace?
    requires Answered(Run(cfg, acts), p, u, v, s) && Answered(Run(cfg, acts + more), q, u, v', s')
    ensures v == v' && s == s'
  {
    var a, b := Run(cfg, acts), Run(cfg, acts + more);
    EarlierInFlight(cfg, acts, more);
    RunAnswers(cfg, acts);
    RunAnswers(cfg, acts + more);
    RunGrows(cfg, acts, more);
    DoneAnswers(cfg, a, p, u, v, s);
    DoneAnswers(cfg, b, q, u, v', s');
    SameAnswer(a.log, b.log, cfg.commands[u], v, s, v', s');
  }

  lemma DoneAnswers(cfg: Config, w: World, pid: nat, u: Id, version: nat, superseded: bool)
    requires AnswersInv(cfg, w) && u in cfg.commands && cfg.commands[u].mode.Replace?
    requires Answered(w, pid, u, version, superseded)
    ensures Answer(w.log, cfg.commands[u], version, superseded)
  {
    assert PcAnswers(w.log, cfg.commands[u], w.procs[pid].pc);
  }

  // ------------------------------------------------------------------ whose request an event echoes

  predicate WasAsked(acts: seq<Action>, u: Id, ask: Ask) {
    exists i :: 0 <= i < |acts| && Asks(acts[i], u, ask)
  }

  predicate Asks(a: Action, u: Id, ask: Ask) {
    a.Delivers? && a.u == u && a.ask == ask
  }

  predicate Echoes(p: Payload, ask: Ask) {
    match p
    case DocumentCreated(_, patch) => patch == ask.patch
    case DocumentBlobValidated(_, patch, based) => patch == ask.patch && based == ask.ifMatch
    case _ => false
  }

  ghost predicate EventAsked(acts: seq<Action>, p: Payload) {
    BlobRef(p).Some? && exists ask :: WasAsked(acts, BlobRef(p).value, ask) && Echoes(p, ask)
  }

  ghost predicate LogAsked(acts: seq<Action>, log: Log) {
    forall k: Key, i :: 0 <= i < |Stream(log, k)| ==> EventAsked(acts, Stream(log, k)[i].event.payload)
  }

  ghost predicate ProcsAsked(acts: seq<Action>, w: World) {
    forall p :: p in w.procs ==> WasAsked(acts, w.procs[p].upload, w.procs[p].ask)
  }

  lemma AskedLater(acts: seq<Action>, a: Action, u: Id, ask: Ask)
    requires WasAsked(acts, u, ask)
    ensures WasAsked(acts + [a], u, ask)
  {
    var i :| 0 <= i < |acts| && Asks(acts[i], u, ask);
    assert (acts + [a])[i] == acts[i];
  }

  lemma EventAskedLater(acts: seq<Action>, a: Action, p: Payload)
    requires EventAsked(acts, p)
    ensures EventAsked(acts + [a], p)
  {
    var ask :| WasAsked(acts, BlobRef(p).value, ask) && Echoes(p, ask);
    AskedLater(acts, a, BlobRef(p).value, ask);
  }

  lemma PublishAsked(acts: seq<Action>, log: Log, e: DocumentEvent, x: Expect)
    requires LogAsked(acts, log) && EventAsked(acts, e.payload)
    ensures LogAsked(acts, Publish(log, e, x))
  {
    var n := Publish(log, e, x);
    forall k: Key, i | 0 <= i < |Stream(n, k)|
      ensures EventAsked(acts, Stream(n, k)[i].event.payload)
    {
      assert i < |Stream(log, k)| ==> Stream(n, k)[i] == Stream(log, k)[i];
    }
  }

  lemma StepLogAsked(cfg: Config, acts: seq<Action>, w: World, a: Action, n: World)
    requires FreshIds(cfg) && LogAsked(acts, w.log) && ProcsAsked(acts, w) && n == Next(cfg, w, a)
    ensures LogAsked(acts, n.log)
  {
    if a.Steps? && a.pid in w.procs && w.procs[a.pid].upload in cfg.commands {
      var p := w.procs[a.pid];
      var c := cfg.commands[p.upload];
      if p.pc.AppendCreate? {
        var e := CreateEvent(c, p.ask, p.pc, a.now);
        assert WasAsked(acts, BlobRef(e.payload).value, p.ask) && Echoes(e.payload, p.ask);
        PublishAsked(acts, w.log, e, CreateOnly);
      } else if p.pc.AppendUpdate? {
        var e := UpdateEvent(c, p.ask, p.pc);
        assert WasAsked(acts, BlobRef(e.payload).value, p.ask) && Echoes(e.payload, p.ask);
        PublishAsked(acts, w.log, e, Exactly(p.pc.seqNo));
      }
    } else {
      assert forall k: Key :: Stream(n.log, k) == Stream(w.log, k);
    }
  }

  lemma StepProcsAsked(cfg: Config, acts: seq<Action>, w: World, a: Action, n: World)
    requires ProcsAsked(acts, w) && n == Next(cfg, w, a)
    ensures ProcsAsked(acts + [a], n)
  {
    forall p | p in n.procs
      ensures WasAsked(acts + [a], n.procs[p].upload, n.procs[p].ask)
    {
      if p in w.procs && (w.procs[p].upload, w.procs[p].ask) == (n.procs[p].upload, n.procs[p].ask) {
        AskedLater(acts, a, n.procs[p].upload, n.procs[p].ask);
      } else {
        assert Asks((acts + [a])[|acts|], n.procs[p].upload, n.procs[p].ask);
      }
    }
  }

  lemma {:induction false} RunAsked(cfg: Config, acts: seq<Action>)
    requires FreshIds(cfg)
    ensures LogAsked(acts, Run(cfg, acts).log) && ProcsAsked(acts, Run(cfg, acts))
  {
    if acts != [] {
      var m := |acts| - 1;
      var init, n := acts[..m], Run(cfg, acts);
      assert acts == init + [acts[m]];
      RunAsked(cfg, init);
      StepLogAsked(cfg, init, Run(cfg, init), acts[m], n);
      StepProcsAsked(cfg, init, Run(cfg, init), acts[m], n);
      forall k: Key, i | 0 <= i < |Stream(n.log, k)|
        ensures EventAsked(acts, Stream(n.log, k)[i].event.payload)
      {
        EventAskedLater(init, acts[m], Stream(n.log, k)[i].event.payload);
      }
    }
  }

  /** Theorem: under every interleaving, each logged event carries the patch and the named version of one of the
      requests delivered for its upload. */
  lemma EventsEchoRequests(cfg: Config, acts: seq<Action>, k: Key, i: nat)
    requires FreshIds(cfg) && i < |Stream(Run(cfg, acts).log, k)|
    ensures EventAsked(acts, Stream(Run(cfg, acts).log, k)[i].event.payload)
  {
    RunAsked(cfg, acts);
  }

  /** Theorem: when all requests for a replace upload name the same version, the flag of every answer is about that
      one. */
  lemma AnswerToOneRequest(cfg: Config, acts: seq<Action>, u: Id, pid: nat, version: nat, superseded: bool,
                           ifMatch: Option<nat>)
    requires FreshIds(cfg) && OneInFlight(cfg, acts) && u in cfg.commands && cfg.commands[u].mode.Replace?
    requires Answered(Run(cfg, acts), pid, u, version, superseded)
    requires forall a <- acts :: a.Delivers? && a.u == u ==> a.ask.ifMatch == ifMatch
    ensures var xs := Stream(Run(cfg, acts).log, DocKey(cfg.commands[u]));
            && IsOwn(xs, cfg.commands[u], version)
            && superseded == (ifMatch.Some? && ifMatch.value != xs[version - 2].event.version)
  {
    var k := DocKey(cfg.commands[u]);
    AnswerIsTheEvents(cfg, acts, u, pid, version, superseded);
    BasedOnRequest(cfg, acts, u, k, Stream(Run(cfg, acts).log, k), version - 1, ifMatch);
  }

  lemma BasedOnRequest(cfg: Config, acts: seq<Action>, u: Id, k: Key, xs: seq<Entry>, i: nat, ifMatch: Option<nat>)
    requires FreshIds(cfg) && xs == Stream(Run(cfg, acts).log, k) && 0 < i < |xs| && Names(xs[i].event, u)
    requires forall a <- acts :: a.Delivers? && a.u == u ==> a.ask.ifMatch == ifMatch
    ensures BasedOn(xs[i].event) == ifMatch
  {
    EventsEchoRequests(cfg, acts, k, i);
    IsReplace(cfg, acts, k, i);
    EchoOfOne(acts, u, xs[i].event, ifMatch);
  }

  lemma IsReplace(cfg: Config, acts: seq<Action>, k: Key, i: nat)
    requires FreshIds(cfg) && 0 < i < |Stream(Run(cfg, acts).log, k)|
    ensures Stream(Run(cfg, acts).log, k)[i].event.payload.DocumentBlobValidated?
  {
    RunInv(cfg, acts);
    var log := Run(cfg, acts).log;
    assert StreamOk(cfg, k, Stream(log, k), log.head);
    assert EntryOk(cfg, k, i, Stream(log, k)[i]);
  }

  lemma EchoOfOne(acts: seq<Action>, u: Id, e: DocumentEvent, ifMatch: Option<nat>)
    requires Names(e, u) && e.payload.DocumentBlobValidated? && EventAsked(acts, e.payload)
    requires forall a <- acts :: a.Delivers? && a.u == u ==> a.ask.ifMatch == ifMatch
    ensures BasedOn(e) == ifMatch
  {
    var ask :| WasAsked(acts, u, ask) && Echoes(e.payload, ask);
    var i :| 0 <= i < |acts| && Asks(acts[i], u, ask);
    assert acts[i] in acts;
  }
}
