/** What every accepted answer says, of creates and replaces alike, under every interleaving. */
module WorkerVersions {
  import opened Wrappers
  import opened Domain
  import opened Fold
  import opened Subject
  import opened EventStore
  import opened UploadRecord
  import opened BlobStore
  import opened Worker
  import opened WorkerLog
  import Transition

  /** The version of an event of the document; a create is never superseded. */
  predicate Ranged(log: Log, c: Command, version: nat, superseded: bool) {
    1 <= version <= |Stream(log, DocKey(c))| && (c.mode.Create? ==> !superseded)
  }

  predicate PcRanged(log: Log, c: Command, pc: Pc) {
    match pc
    case Recording(Accepted(version, superseded), _) => Ranged(log, c, version, superseded)
    case Done(AcceptedOutcome(doc, version, superseded), expired) =>
      && doc == c.documentId && Ranged(log, c, version, superseded)
      && (expired && c.mode.Create? ==> version == 1)
    case _ => true
  }

  predicate RecordRanged(log: Log, rs: Records, c: Command) {
    Record(c) in rs && rs[Record(c)].state.status.Accepted? ==>
      Ranged(log, c, rs[Record(c)].state.status.version, rs[Record(c)].state.status.superseded)
  }

  ghost predicate RangedInv(cfg: Config, w: World) {
    && (forall u :: u in cfg.commands ==> RecordRanged(w.log, w.records, cfg.commands[u]))
    && forall p :: p in w.procs && w.procs[p].upload in cfg.commands ==>
         PcRanged(w.log, cfg.commands[w.procs[p].upload], w.procs[p].pc)
  }

  // ------------------------------------------------------------------ a delivery's own step

  lemma TailIsLength(cfg: Config, log: Log, c: Command)
    requires LogOk(cfg, log)
    ensures Last(log, DocKey(c)).Some? ==>
              Last(log, DocKey(c)).value.version == |Stream(log, DocKey(c))| && Stream(log, DocKey(c)) != []
  {
    var xs := Stream(log, DocKey(c));
    assert StreamOk(cfg, DocKey(c), xs, log.head);
    if xs != [] {
      assert EntryOk(cfg, DocKey(c), |xs| - 1, xs[|xs| - 1]);
    }
  }

  lemma FoundIsRanged(cfg: Config, log: Log, c: Command)
    requires LogOk(cfg, log) && CommandOf(cfg, c.uploadId, c)
    ensures var x := FindBlob(Stream(log, DocKey(c)), c.uploadId);
            x.Some? ==>
              && 1 <= x.value.event.version <= |Stream(log, DocKey(c))|
              && (c.mode.Create? ==> x.value.event.version == 1)
  {
    var xs := Stream(log, DocKey(c));
    FindBlobFinds(xs, c.uploadId);
    assert StreamOk(cfg, DocKey(c), xs, log.head);
    if FindBlob(xs, c.uploadId).Some? {
      var i :| 0 <= i < |xs| && xs[i] == FindBlob(xs, c.uploadId).value;
      assert EntryOk(cfg, DocKey(c), i, xs[i]);
    }
  }

  lemma CreateRanged(cfg: Config, log: Log, c: Command, ask: Ask, last: bool, pc: Pc, port: Port, now: int)
    requires LogOk(cfg, log) && pc.AppendCreate?
    ensures PcRanged(NextLog(c, ask, pc, log, port, now), c, LogNext(c, ask, last, pc, log, port, now))
  {
  }

  lemma UpdateRanged(cfg: Config, log: Log, c: Command, ask: Ask, last: bool, pc: Pc, port: Port, now: int)
    requires LogOk(cfg, log) && CommandOf(cfg, c.uploadId, c) && PcOk(cfg, log, c, pc) && pc.AppendUpdate?
    ensures PcRanged(NextLog(c, ask, pc, log, port, now), c, LogNext(c, ask, last, pc, log, port, now))
  {
    if Lands(log, UpdateEvent(c, ask, pc), Exactly(pc.seqNo)) {
      UpdateEntryOk(cfg, log, c, ask, pc);
    }
  }

  lemma ReadRanged(cfg: Config, log: Log, c: Command, ask: Ask, last: bool, pc: Pc, port: Port, now: int)
    requires LogOk(cfg, log) && CommandOf(cfg, c.uploadId, c) && PcOk(cfg, log, c, pc)
    requires Logging(pc) && !pc.AppendCreate? && !pc.AppendUpdate?
    ensures PcRanged(log, c, LogNext(c, ask, last, pc, log, port, now))
  {
    TailIsLength(cfg, log, c);
    FoundIsRanged(cfg, log, c);
  }

  lemma RecordStepRanged(log: Log, rs: Records, c: Command, last: bool, pc: Pc, port: Port, now: int)
    requires !Verifying(pc) && !Logging(pc) && PcRanged(log, c, pc) && RecordRanged(log, rs, c)
    ensures PcRanged(log, c, RecordNext(c, last, pc, rs, port, now))
  {
  }

  lemma VerifyRanged(cfg: Config, log: Log, b: Blobs, c: Command, last: bool, pc: Pc, port: Port)
    requires Verifying(pc)
    ensures PcRanged(log, c, VerifyNext(cfg, c, last, pc, b, port))
  {
  }

  lemma OwnRanged(cfg: Config, w: World, c: Command, ask: Ask, last: bool, pc: Pc, port: Port, now: int, next: Pc)
    requires LogOk(cfg, w.log) && CommandOf(cfg, c.uploadId, c) && PcOk(cfg, w.log, c, pc)
    requires PcRanged(w.log, c, pc) && RecordRanged(w.log, w.records, c)
    requires next == NextPc(cfg, c, ask, last, pc, w.log, w.blobs, w.records, port, now)
    ensures PcRanged(NextLog(c, ask, pc, w.log, port, now), c, next)
  {
    if Verifying(pc) {
      VerifyRanged(cfg, w.log, w.blobs, c, last, pc, port);
    } else if pc.AppendCreate? {
      CreateRanged(cfg, w.log, c, ask, last, pc, port, now);
    } else if pc.AppendUpdate? {
      UpdateRanged(cfg, w.log, c, ask, last, pc, port, now);
    } else if Logging(pc) {
      ReadRanged(cfg, w.log, c, ask, last, pc, port, now);
    } else {
      RecordStepRanged(w.log, w.records, c, last, pc, port, now);
    }
  }

  // ------------------------------------------------------------------ everybody else

  lemma RangedGrows(a: Log, b: Log, c: Command, pc: Pc)
    requires Grows(a, b) && PcRanged(a, c, pc)
    ensures PcRanged(b, c, pc)
  {
    assert Stream(a, DocKey(c)) <= Stream(b, DocKey(c));
  }

  lemma RecordGrows(a: World, b: World, c: Command)
    requires Grows(a.log, b.log) && RecordRanged(a.log, a.records, c)
    requires Record(c) in b.records ==>
               (Record(c) in a.records && b.records[Record(c)].state.status == a.records[Record(c)].state.status)
               || RecordRanged(b.log, b.records, c)
    ensures RecordRanged(b.log, b.records, c)
  {
    assert Stream(a.log, DocKey(c)) <= Stream(b.log, DocKey(c));
  }

  lemma StepRecord(cfg: Config, w: World, pid: nat, port: Port, now: int, n: World, u: Id)
    requires FreshIds(cfg) && Inv(cfg, w) && RangedInv(cfg, w) && u in cfg.commands && Grows(w.log, n.log)
    requires pid in w.procs && w.procs[pid].upload in cfg.commands && n == StepProc(cfg, w, pid, port, now)
    ensures RecordRanged(n.log, n.records, cfg.commands[u])
  {
    var p := w.procs[pid];
    assert ProcOk(cfg, w.log, p) && RecordRanged(w.log, w.records, cfg.commands[u]);
    if p.pc.Recording? {
      RangedGrows(w.log, n.log, cfg.commands[p.upload], p.pc);
    }
    RecordGrows(w, n, cfg.commands[u]);
  }

  lemma StepProcRanged(cfg: Config, w: World, pid: nat, port: Port, now: int, n: World)
    requires FreshIds(cfg) && Inv(cfg, w) && RangedInv(cfg, w) && Grows(w.log, n.log)
    requires pid in w.procs && w.procs[pid].upload in cfg.commands && n == StepProc(cfg, w, pid, port, now)
    ensures RangedInv(cfg, n)
  {
    var p := w.procs[pid];
    assert ProcOk(cfg, w.log, p) && RecordRanged(w.log, w.records, cfg.commands[p.upload]);
    forall u | u in cfg.commands
      ensures RecordRanged(n.log, n.records, cfg.commands[u])
    {
      StepRecord(cfg, w, pid, port, now, n, u);
    }
    OwnRanged(cfg, w, cfg.commands[p.upload], p.ask, p.last, p.pc, port, now, n.procs[pid].pc);
    forall q | q in n.procs && q != pid && n.procs[q].upload in cfg.commands
      ensures PcRanged(n.log, cfg.commands[n.procs[q].upload], n.procs[q].pc)
    {
      RangedGrows(w.log, n.log, cfg.commands[w.procs[q].upload], w.procs[q].pc);
    }
  }

  lemma EnvRecord(cfg: Config, w: World, a: Action, n: World, u: Id)
    requires FreshIds(cfg) && Inv(cfg, w) && u in cfg.commands && RecordRanged(w.log, w.records, cfg.commands[u])
    requires !a.Steps? && n == Next(cfg, w, a) && Grows(w.log, n.log)
    ensures RecordRanged(n.log, n.records, cfg.commands[u])
  {
    if a.ApiSteps? && a.pid in w.api {
      assert ApiOk(cfg, w.api[a.pid]);
    }
    RecordGrows(w, n, cfg.commands[u]);
  }

  lemma EnvRanged(cfg: Config, w: World, a: Action, n: World)
    requires FreshIds(cfg) && Inv(cfg, w) && RangedInv(cfg, w) && !a.Steps?
    requires n == Next(cfg, w, a) && Grows(w.log, n.log)
    ensures RangedInv(cfg, n)
  {
    forall u | u in cfg.commands
      ensures RecordRanged(n.log, n.records, cfg.commands[u])
    {
      EnvRecord(cfg, w, a, n, u);
    }
    Newcomers(cfg, w, a, n);
    forall q | q in n.procs && n.procs[q].upload in cfg.commands
      ensures PcRanged(n.log, cfg.commands[n.procs[q].upload], n.procs[q].pc)
    {
      if q in w.procs {
        RangedGrows(w.log, n.log, cfg.commands[w.procs[q].upload], w.procs[q].pc);
      }
    }
  }

  lemma Newcomers(cfg: Config, w: World, a: Action, n: World)
    requires !a.Steps? && n == Next(cfg, w, a)
    ensures forall q :: q in n.procs ==> if q in w.procs then n.procs[q] == w.procs[q] else n.procs[q].pc == LoadRecord
  {
  }

  lemma {:induction false} RunRanged(cfg: Config, acts: seq<Action>)
    requires FreshIds(cfg)
    ensures RangedInv(cfg, Run(cfg, acts))
  {
    if acts != [] {
      var m := |acts| - 1;
      var init, a := acts[..m], acts[m];
      RunRanged(cfg, init);
      RunInv(cfg, init);
      var w := Run(cfg, init);
      StepInv(cfg, w, a);
      if a.Steps? {
        if a.pid in w.procs {
          assert ProcOk(cfg, w.log, w.procs[a.pid]);
          StepProcRanged(cfg, w, a.pid, a.port, a.now, Run(cfg, acts));
        }
      } else {
        EnvRanged(cfg, w, a, Run(cfg, acts));
      }
    }
  }

  /** Theorem: under every interleaving, an accepted answer is about the upload's own document and names the version
      of one of its events; a create is never called superseded, and after expiry it is version 1. */
  lemma AnswersNameVersions(cfg: Config, acts: seq<Action>, pid: nat)
    requires FreshIds(cfg) && pid in Run(cfg, acts).procs
    ensures var w := Run(cfg, acts);
            var p := w.procs[pid];
            && p.upload in cfg.commands
            && var c := cfg.commands[p.upload];
               p.pc.Done? && p.pc.outcome.AcceptedOutcome? ==>
                 && p.pc.outcome.documentId == c.documentId
                 && 1 <= p.pc.outcome.version <= |Stream(w.log, DocKey(c))|
                 && (c.mode.Create? ==> !p.pc.outcome.superseded && (p.pc.expired ==> p.pc.outcome.version == 1))
  {
    RunInv(cfg, acts);
    RunRanged(cfg, acts);
    var w := Run(cfg, acts);
    assert ProcOk(cfg, w.log, w.procs[pid]);
    assert PcRanged(w.log, cfg.commands[w.procs[pid].upload], w.procs[pid].pc);
  }
}
