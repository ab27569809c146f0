/** What holds of the log and the records in every reachable state, whatever interleaves. */
module WorkerLog {
  import opened Wrappers
  import opened Domain
  import opened Fold
  import opened Subject
  import opened EventStore
  import opened UploadRecord
  import opened BlobStore
  import opened Worker
  import Transition

  /** Entry `i` of a stream: version `i + 1`, produced by the command of the upload it names, a create exactly when
      it is the first. */
  predicate EntryOk(cfg: Config, k: Key, i: nat, x: Entry) {
    var e := x.event;
    && KeyOf(e) == k && e.version == i + 1
    && (i == 0 <==> e.payload.DocumentCreated?)
    && BlobRef(e.payload).Some? && BlobRef(e.payload).value in cfg.commands
    && var c := cfg.commands[BlobRef(e.payload).value];
       && DocKey(c) == k && e.eventId == EventIdOf(c) && e.actor == User(c.ownerUserId)
       && (c.mode.Create? <==> i == 0)
       && DescribesUpload(FactsOf(e.payload), c)
  }

  predicate DescribesUpload(facts: Option<BlobFacts>, c: Command) {
    && facts.Some? && facts.value.filename == c.filename && facts.value.contentType == c.contentType
    && facts.value.byteSize == c.declaredSize
  }

  predicate StreamOk(cfg: Config, k: Key, xs: seq<Entry>, head: nat) {
    OrderedStream(xs, head) && forall i :: 0 <= i < |xs| ==> EntryOk(cfg, k, i, xs[i])
  }

  predicate HasId(xs: seq<Entry>, id: EventId) {
    exists i :: 0 <= i < |xs| && xs[i].event.eventId == id
  }

  ghost predicate LogOk(cfg: Config, log: Log) {
    && (forall k: Key :: StreamOk(cfg, k, Stream(log, k), log.head))
    && forall s :: s in log.seen ==> HasId(Stream(log, s.key), s.id)
  }

  /** What two commands share: a stream when tenant and document agree, an object when tenant and upload do, a record
      when the owner does too. */
  lemma KeysAreApart(c: Command, d: Command)
    ensures DocKey(c) == DocKey(d) <==> c.tenantId == d.tenantId && c.documentId == d.documentId
    ensures Object(c) == Object(d) <==> c.tenantId == d.tenantId && c.uploadId == d.uploadId
    ensures Record(c) == Record(d) <==> Object(c) == Object(d) && c.ownerUserId == d.ownerUserId
    ensures Multipart(c) == Multipart(d) <==> Object(c) == Object(d) && c.multipartUploadId == d.multipartUploadId
    ensures EventIdOf(c) == EventIdOf(d) ==> Object(c) == Object(d) && c.mode == d.mode
  {
  }

  /** An event carrying the upload's blob is in its document's log. */
  predicate Logged(log: Log, c: Command) {
    exists i :: 0 <= i < |Stream(log, DocKey(c))| && Names(Stream(log, DocKey(c))[i].event, c.uploadId)
  }

  lemma LoggedGrows(a: Log, b: Log, c: Command)
    requires Grows(a, b) && Logged(a, c)
    ensures Logged(b, c)
  {
    var k := DocKey(c);
    assert Stream(a, k) <= Stream(b, k);
    var i :| 0 <= i < |Stream(a, k)| && Names(Stream(a, k)[i].event, c.uploadId);
    assert Stream(b, k)[i] == Stream(a, k)[i];
  }

  /** An event id stands for one upload. */
  lemma IdNamesUpload(cfg: Config, log: Log, c: Command)
    requires FreshIds(cfg) && LogOk(cfg, log) && c.uploadId in cfg.commands && cfg.commands[c.uploadId] == c
    requires HasId(Stream(log, DocKey(c)), EventIdOf(c))
    ensures Logged(log, c)
  {
    var xs := Stream(log, DocKey(c));
    var i :| 0 <= i < |xs| && xs[i].event.eventId == EventIdOf(c);
    assert StreamOk(cfg, DocKey(c), xs, log.head);
    assert EntryOk(cfg, DocKey(c), i, xs[i]);
  }

  /** A document that has any event was created by its one creating upload. */
  lemma CreatorIsLogged(cfg: Config, log: Log, c: Command)
    requires FreshIds(cfg) && LogOk(cfg, log) && c.uploadId in cfg.commands && cfg.commands[c.uploadId] == c
    requires c.mode.Create? && Stream(log, DocKey(c)) != []
    ensures Logged(log, c)
  {
    var xs := Stream(log, DocKey(c));
    assert StreamOk(cfg, DocKey(c), xs, log.head);
    assert EntryOk(cfg, DocKey(c), 0, xs[0]);
    var d := cfg.commands[BlobRef(xs[0].event.payload).value];
    assert SameCreate(c, d);
    assert Names(xs[0].event, c.uploadId);
  }

  // ------------------------------------------------------------------ publishing keeps the log well formed

  lemma PublishStreams(cfg: Config, log: Log, e: DocumentEvent, x: Expect, k: Key)
    requires StreamOk(cfg, k, Stream(log, k), log.head)
    requires Lands(log, e, x) ==> EntryOk(cfg, KeyOf(e), |Stream(log, KeyOf(e))|, Entry(log.head + 1, e))
    ensures StreamOk(cfg, k, Stream(Publish(log, e, x), k), Publish(log, e, x).head)
  {
    var xs, ys := Stream(log, k), Stream(Publish(log, e, x), k);
    if Lands(log, e, x) && k == KeyOf(e) {
      assert ys == xs + [Entry(log.head + 1, e)];
    } else {
      assert ys == xs;
    }
  }

  lemma PublishSeen(log: Log, e: DocumentEvent, x: Expect, s: SeenKey)
    requires s in log.seen ==> HasId(Stream(log, s.key), s.id)
    ensures s in Publish(log, e, x).seen ==> HasId(Stream(Publish(log, e, x), s.key), s.id)
  {
    var xs, ys := Stream(log, s.key), Stream(Publish(log, e, x), s.key);
    if s in log.seen {
      var i :| 0 <= i < |xs| && xs[i].event.eventId == s.id;
      assert ys[i] == xs[i];
    } else if s in Publish(log, e, x).seen {
      assert ys[|ys| - 1].event.eventId == s.id;
    }
  }

  lemma PublishOk(cfg: Config, log: Log, e: DocumentEvent, x: Expect)
    requires LogOk(cfg, log)
    requires Lands(log, e, x) ==> EntryOk(cfg, KeyOf(e), |Stream(log, KeyOf(e))|, Entry(log.head + 1, e))
    ensures LogOk(cfg, Publish(log, e, x))
  {
    forall k: Key {
      PublishStreams(cfg, log, e, x, k);
    }
    forall s: SeenKey {
      PublishSeen(log, e, x, s);
    }
  }

  predicate HasTail(xs: seq<Entry>, version: nat, seqNo: nat) {
    exists i :: 0 <= i < |xs| && xs[i].seqNo == seqNo && version == i + 1
  }

  lemma UpdateEntryOk(cfg: Config, log: Log, c: Command, ask: Ask, pc: Pc)
    requires LogOk(cfg, log) && c.uploadId in cfg.commands && cfg.commands[c.uploadId] == c
    requires pc.AppendUpdate? && c.mode.Replace? && HasTail(Stream(log, DocKey(c)), pc.version, pc.seqNo)
    requires Lands(log, UpdateEvent(c, ask, pc), Exactly(pc.seqNo))
    ensures EntryOk(cfg, DocKey(c), |Stream(log, DocKey(c))|, Entry(log.head + 1, UpdateEvent(c, ask, pc)))
    ensures pc.version == |Stream(log, DocKey(c))|
  {
    var xs := Stream(log, DocKey(c));
    assert StreamOk(cfg, DocKey(c), xs, log.head);
    var i :| 0 <= i < |xs| && xs[i].seqNo == pc.seqNo && pc.version == i + 1;
    assert forall j :: 0 <= j < |xs| - 1 ==> xs[j].seqNo < xs[|xs| - 1].seqNo;
  }

  lemma CreateEntryOk(cfg: Config, log: Log, c: Command, ask: Ask, pc: Pc, now: int)
    requires LogOk(cfg, log) && c.uploadId in cfg.commands && cfg.commands[c.uploadId] == c
    requires pc.AppendCreate? && c.mode.Create?
    requires Lands(log, CreateEvent(c, ask, pc, now), CreateOnly)
    ensures Stream(log, DocKey(c)) == []
    ensures EntryOk(cfg, DocKey(c), 0, Entry(log.head + 1, CreateEvent(c, ask, pc, now)))
  {
    assert StreamOk(cfg, DocKey(c), Stream(log, DocKey(c)), log.head);
  }

  // ------------------------------------------------------------------ what each program point knows

  predicate CommandOf(cfg: Config, u: Id, c: Command) {
    u in cfg.commands && cfg.commands[u] == c && c.uploadId == u
  }

  predicate PcOk(cfg: Config, log: Log, c: Command, pc: Pc) {
    match pc
    case AppendCreate(_) => c.mode.Create?
    case LastAfterCreate => c.mode.Create? && Logged(log, c)
    case ReadHistory(_) => c.mode.Replace?
    case LastForUpdate(_, _, _) => c.mode.Replace?
    case AppendUpdate(_, _, _, version, seqNo) =>
      c.mode.Replace? && HasTail(Stream(log, DocKey(c)), version, seqNo)
    case LastAfterDuplicate => c.mode.Replace? && Logged(log, c)
    case Recording(status, call) =>
      && (status.Accepted? ==> Logged(log, c))
      && (call.Swapping? ==> OwnKey(call.read.state.pre) == Record(c))
    case Done(outcome, _) => outcome.AcceptedOutcome? ==> Logged(log, c)
    case _ => true
  }

  lemma PcGrows(cfg: Config, a: Log, b: Log, c: Command, pc: Pc)
    requires PcOk(cfg, a, c, pc) && Grows(a, b)
    ensures PcOk(cfg, b, c, pc)
  {
    var k := DocKey(c);
    if Logged(a, c) {
      LoggedGrows(a, b, c);
    }
    if pc.AppendUpdate? {
      assert Stream(a, k) <= Stream(b, k);
      var i :| 0 <= i < |Stream(a, k)| && Stream(a, k)[i].seqNo == pc.seqNo && pc.version == i + 1;
      assert Stream(b, k)[i] == Stream(a, k)[i];
    }
  }

  lemma StepLog(cfg: Config, log: Log, c: Command, ask: Ask, pc: Pc, port: Port, now: int)
    requires FreshIds(cfg) && LogOk(cfg, log) && CommandOf(cfg, c.uploadId, c) && PcOk(cfg, log, c, pc)
    ensures LogOk(cfg, NextLog(c, ask, pc, log, port, now)) && Grows(log, NextLog(c, ask, pc, log, port, now))
  {
    if TakesEffect(port) && pc.AppendCreate? {
      var e := CreateEvent(c, ask, pc, now);
      PublishGrows(log, e, CreateOnly);
      if Lands(log, e, CreateOnly) {
        CreateEntryOk(cfg, log, c, ask, pc, now);
      }
      PublishOk(cfg, log, e, CreateOnly);
    } else if TakesEffect(port) && pc.AppendUpdate? {
      var e := UpdateEvent(c, ask, pc);
      PublishGrows(log, e, Exactly(pc.seqNo));
      if Lands(log, e, Exactly(pc.seqNo)) {
        UpdateEntryOk(cfg, log, c, ask, pc);
      }
      PublishOk(cfg, log, e, Exactly(pc.seqNo));
    }
  }

  lemma {:induction false} FindBlobFinds(xs: seq<Entry>, u: Id)
    ensures match FindBlob(xs, u)
            case None => forall i :: 0 <= i < |xs| ==> !Names(xs[i].event, u)
            case Some(x) => Names(x.event, u) && exists i :: 0 <= i < |xs| && xs[i] == x
  {
    if xs != [] && !Names(xs[0].event, u) {
      FindBlobFinds(xs[1..], u);
      match FindBlob(xs[1..], u)
      case None =>
        forall i | 0 <= i < |xs|
          ensures !Names(xs[i].event, u)
        {
          assert i > 0 ==> xs[i] == xs[1..][i - 1];
        }
      case Some(x) =>
        var i :| 0 <= i < |xs[1..]| && xs[1..][i] == x;
        assert xs[i + 1] == x;
    }
  }

  lemma FindBlobLogged(log: Log, c: Command)
    ensures FindBlob(Stream(log, DocKey(c)), c.uploadId).Some? <==> Logged(log, c)
  {
    FindBlobFinds(Stream(log, DocKey(c)), c.uploadId);
  }

  lemma LandedIsLogged(log: Log, c: Command, e: DocumentEvent, x: Expect)
    requires Lands(log, e, x) && KeyOf(e) == DocKey(c) && Names(e, c.uploadId)
    ensures Logged(Publish(log, e, x), c)
  {
    var xs := Stream(Publish(log, e, x), DocKey(c));
    assert xs[|xs| - 1].event == e;
  }

  /** A publish that was not turned away leaves the upload logged. */
  lemma AnsweredIsLogged(cfg: Config, log: Log, c: Command, e: DocumentEvent, x: Expect)
    requires FreshIds(cfg) && LogOk(cfg, log) && CommandOf(cfg, c.uploadId, c)
    requires KeyOf(e) == DocKey(c) && e.eventId == EventIdOf(c) && Names(e, c.uploadId)
    requires PublishReply(log, e, x).Ok?
    ensures Logged(Publish(log, e, x), c)
  {
    if Duplicate(log, e) {
      assert HasId(Stream(log, DocKey(c)), EventIdOf(c));
      IdNamesUpload(cfg, log, c);
    } else {
      LandedIsLogged(log, c, e, x);
    }
  }

  /** After its own step a delivery knows what its next program point needs. */
  lemma StepCreatePc(cfg: Config, log: Log, c: Command, ask: Ask, last: bool, pc: Pc, port: Port, now: int)
    requires FreshIds(cfg) && LogOk(cfg, log) && CommandOf(cfg, c.uploadId, c) && PcOk(cfg, log, c, pc)
    requires pc.AppendCreate?
    ensures PcOk(cfg, NextLog(c, ask, pc, log, port, now), c, LogNext(c, ask, last, pc, log, port, now))
  {
    if port.Works? {
      var e := CreateEvent(c, ask, pc, now);
      if PublishReply(log, e, CreateOnly).Ok? {
        AnsweredIsLogged(cfg, log, c, e, CreateOnly);
      } else {
        CreatorIsLogged(cfg, log, c);
      }
    }
  }

  lemma StepUpdatePc(cfg: Config, log: Log, c: Command, ask: Ask, last: bool, pc: Pc, port: Port, now: int)
    requires FreshIds(cfg) && LogOk(cfg, log) && CommandOf(cfg, c.uploadId, c) && PcOk(cfg, log, c, pc)
    requires pc.AppendUpdate?
    ensures PcOk(cfg, NextLog(c, ask, pc, log, port, now), c, LogNext(c, ask, last, pc, log, port, now))
  {
    if port.Works? && PublishReply(log, UpdateEvent(c, ask, pc), Exactly(pc.seqNo)).Ok? {
      AnsweredIsLogged(cfg, log, c, UpdateEvent(c, ask, pc), Exactly(pc.seqNo));
    }
  }

  lemma StepReadPc(cfg: Config, log: Log, c: Command, ask: Ask, last: bool, pc: Pc, port: Port, now: int)
    requires FreshIds(cfg) && LogOk(cfg, log) && CommandOf(cfg, c.uploadId, c) && PcOk(cfg, log, c, pc)
    requires pc.CheckHistory? || pc.LastAfterCreate? || pc.ReadHistory? || pc.LastForUpdate? || pc.LastAfterDuplicate?
    ensures PcOk(cfg, log, c, LogNext(c, ask, last, pc, log, port, now))
  {
    if pc.LastForUpdate? {
      StepTailPc(cfg, log, c, ask, last, pc, port, now);
    } else {
      FindBlobLogged(log, c);
    }
  }

  lemma StepTailPc(cfg: Config, log: Log, c: Command, ask: Ask, last: bool, pc: Pc, port: Port, now: int)
    requires LogOk(cfg, log) && PcOk(cfg, log, c, pc) && pc.LastForUpdate?
    ensures PcOk(cfg, log, c, LogNext(c, ask, last, pc, log, port, now))
  {
    if Last(log, DocKey(c)).Some? {
      var xs := Stream(log, DocKey(c));
      assert StreamOk(cfg, DocKey(c), xs, log.head);
      assert EntryOk(cfg, DocKey(c), |xs| - 1, xs[|xs| - 1]);
    }
  }

  ghost predicate RecordsOk(cfg: Config, log: Log, rs: Records) {
    && (forall k :: k in rs ==> OwnKey(rs[k].state.pre) == k)
    && forall u :: u in cfg.commands && SaysAccepted(rs, cfg.commands[u]) ==> Logged(log, cfg.commands[u])
  }

  predicate SaysAccepted(rs: Records, c: Command) {
    Record(c) in rs && rs[Record(c)].state.status.Accepted?
  }

  lemma StepVerifyPc(cfg: Config, log: Log, b: Blobs, c: Command, last: bool, pc: Pc, port: Port)
    requires Verifying(pc)
    ensures PcOk(cfg, log, c, VerifyNext(cfg, c, last, pc, b, port))
  {
  }

  lemma StepRecordPc(cfg: Config, log: Log, rs: Records, c: Command, last: bool, pc: Pc, port: Port, now: int)
    requires RecordsOk(cfg, log, rs) && CommandOf(cfg, c.uploadId, c) && PcOk(cfg, log, c, pc)
    requires !Verifying(pc) && !Logging(pc)
    ensures PcOk(cfg, log, c, RecordNext(c, last, pc, rs, port, now))
  {
    assert SaysAccepted(rs, c) ==> Logged(log, c);
  }

  lemma StepPc(cfg: Config, log: Log, b: Blobs, rs: Records, c: Command, ask: Ask, last: bool, pc: Pc, port: Port,
               now: int)
    requires FreshIds(cfg) && LogOk(cfg, log) && RecordsOk(cfg, log, rs)
    requires CommandOf(cfg, c.uploadId, c) && PcOk(cfg, log, c, pc)
    ensures PcOk(cfg, NextLog(c, ask, pc, log, port, now), c, NextPc(cfg, c, ask, last, pc, log, b, rs, port, now))
  {
    if Verifying(pc) {
      StepVerifyPc(cfg, log, b, c, last, pc, port);
    } else if pc.AppendCreate? {
      StepCreatePc(cfg, log, c, ask, last, pc, port, now);
    } else if pc.AppendUpdate? {
      StepUpdatePc(cfg, log, c, ask, last, pc, port, now);
    } else if Logging(pc) {
      StepReadPc(cfg, log, c, ask, last, pc, port, now);
    } else {
      StepRecordPc(cfg, log, rs, c, last, pc, port, now);
    }
  }

  lemma RecordsGrow(cfg: Config, a: Log, b: Log, rs: Records)
    requires RecordsOk(cfg, a, rs) && Grows(a, b)
    ensures RecordsOk(cfg, b, rs)
  {
    forall u | u in cfg.commands && SaysAccepted(rs, cfg.commands[u])
      ensures Logged(b, cfg.commands[u])
    {
      LoggedGrows(a, b, cfg.commands[u]);
    }
  }

  /** A status write keeps the records honest when an `Accepted` is only written for a logged upload. */
  lemma WriteOk(cfg: Config, log: Log, rs: Records, c: Command, status: UploadStatus, now: int, call: Transition.Call,
                port: Port)
    requires FreshIds(cfg) && RecordsOk(cfg, log, rs) && CommandOf(cfg, c.uploadId, c)
    requires status.Accepted? ==> Logged(log, c)
    requires call.Swapping? ==> OwnKey(call.read.state.pre) == Record(c)
    ensures RecordsOk(cfg, log, Transition.CallRecords(rs, status, now, call, port))
  {
  }

  // ------------------------------------------------------------------ the invariant of every run

  ghost predicate Inv(cfg: Config, w: World) {
    && LogOk(cfg, w.log)
    && RecordsOk(cfg, w.log, w.records)
    && (forall p :: p in w.procs ==> ProcOk(cfg, w.log, w.procs[p]))
    && forall p :: p in w.api ==> ApiOk(cfg, w.api[p])
  }

  predicate ProcOk(cfg: Config, log: Log, p: Proc) {
    p.upload in cfg.commands && PcOk(cfg, log, cfg.commands[p.upload], p.pc)
  }

  predicate ApiOk(cfg: Config, x: ApiCall) {
    x.upload in cfg.commands
    && (x.call.Swapping? ==> OwnKey(x.call.read.state.pre) == Record(cfg.commands[x.upload]))
  }

  lemma StepProcInv(cfg: Config, w: World, pid: nat, port: Port, now: int)
    requires FreshIds(cfg) && Inv(cfg, w) && pid in w.procs
    ensures w.procs[pid].upload in cfg.commands
    ensures Inv(cfg, StepProc(cfg, w, pid, port, now))
    ensures Grows(w.log, StepProc(cfg, w, pid, port, now).log)
  {
    var p := w.procs[pid];
    assert ProcOk(cfg, w.log, p);
    var c := cfg.commands[p.upload];
    var n := StepProc(cfg, w, pid, port, now);
    StepLog(cfg, w.log, c, p.ask, p.pc, port, now);
    StepPc(cfg, w.log, w.blobs, w.records, c, p.ask, p.last, p.pc, port, now);
    forall q | q in n.procs && q != pid
      ensures ProcOk(cfg, n.log, n.procs[q])
    {
      assert ProcOk(cfg, w.log, w.procs[q]);
      PcGrows(cfg, w.log, n.log, cfg.commands[w.procs[q].upload], w.procs[q].pc);
    }
    if p.pc.Recording? {
      WriteOk(cfg, w.log, w.records, c, p.pc.status, now, p.pc.call, port);
    }
    RecordsGrow(cfg, w.log, n.log, n.records);
  }

  lemma ForgetInv(cfg: Config, w: World, u: Id)
    requires Inv(cfg, w)
    ensures Inv(cfg, Next(cfg, w, Forgets(u))) && Grows(w.log, Next(cfg, w, Forgets(u)).log)
  {
    var n := Next(cfg, w, Forgets(u));
    assert forall k: Key :: Stream(n.log, k) == Stream(w.log, k);
    forall q | q in n.procs
      ensures ProcOk(cfg, n.log, n.procs[q])
    {
      assert ProcOk(cfg, w.log, w.procs[q]);
      PcGrows(cfg, w.log, n.log, cfg.commands[w.procs[q].upload], w.procs[q].pc);
    }
    RecordsGrow(cfg, w.log, n.log, w.records);
    forall k: Key
      ensures StreamOk(cfg, k, Stream(n.log, k), n.log.head)
    {
      assert StreamOk(cfg, k, Stream(w.log, k), w.log.head);
    }
  }

  lemma ApiInv(cfg: Config, w: World, pid: nat, port: Port, now: int)
    requires FreshIds(cfg) && Inv(cfg, w)
    ensures Inv(cfg, Next(cfg, w, ApiSteps(pid, port, now)))
  {
    if pid in w.api && w.api[pid].upload in cfg.commands {
      assert ApiOk(cfg, w.api[pid]);
      WriteOk(cfg, w.log, w.records, cfg.commands[w.api[pid].upload], Scanning, now, w.api[pid].call, port);
    }
  }

  lemma PreflightInv(cfg: Config, w: World, u: Id, pre: Preflight, now: int)
    requires FreshIds(cfg) && Inv(cfg, w)
    ensures Inv(cfg, Next(cfg, w, Preflights(u, pre, now)))
  {
    var n := Next(cfg, w, Preflights(u, pre, now));
    assert forall v :: v in cfg.commands && SaysAccepted(n.records, cfg.commands[v]) ==>
                         SaysAccepted(w.records, cfg.commands[v]);
  }

  /** Actions that touch neither the log nor what the records say. */
  predicate Quiet(a: Action) {
    !a.Steps? && !a.Forgets? && !a.ApiSteps? && !a.Preflights?
  }

  lemma QuietInv(cfg: Config, w: World, a: Action)
    requires Inv(cfg, w) && Quiet(a)
    ensures Inv(cfg, Next(cfg, w, a)) && Next(cfg, w, a).log == w.log
  {
    var n := Next(cfg, w, a);
    assert forall v :: v in cfg.commands && SaysAccepted(n.records, cfg.commands[v]) ==>
                         SaysAccepted(w.records, cfg.commands[v]);
  }

  lemma StepInv(cfg: Config, w: World, a: Action)
    requires FreshIds(cfg) && Inv(cfg, w)
    ensures Inv(cfg, Next(cfg, w, a)) && Grows(w.log, Next(cfg, w, a).log)
  {
    match a
    case Steps(pid, port, now) =>
      if pid in w.procs {
        StepProcInv(cfg, w, pid, port, now);
      }
    case Forgets(u) => ForgetInv(cfg, w, u);
    case ApiSteps(pid, port, now) => ApiInv(cfg, w, pid, port, now);
    case Preflights(u, pre, now) => PreflightInv(cfg, w, u, pre, now);
    case _ => QuietInv(cfg, w, a);
  }

  lemma {:induction false} RunInv(cfg: Config, acts: seq<Action>)
    requires FreshIds(cfg)
    ensures Inv(cfg, Run(cfg, acts))
  {
    if acts != [] {
      RunInv(cfg, acts[..|acts| - 1]);
      StepInv(cfg, Run(cfg, acts[..|acts| - 1]), acts[|acts| - 1]);
    }
  }

  // ------------------------------------------------------------------ theorems

  /** In every reachable state, a record says `accepted` only if the upload's event is already in the log. */
  lemma AcceptedMeansLogged(cfg: Config, acts: seq<Action>, u: Id)
    requires FreshIds(cfg) && u in cfg.commands
    ensures var w := Run(cfg, acts);
            SaysAccepted(w.records, cfg.commands[u]) ==> Logged(w.log, cfg.commands[u])
  {
    RunInv(cfg, acts);
  }

  /** Every delivery that answers `accepted` answers for an event that is in the log. */
  lemma AcceptedAnswerIsLogged(cfg: Config, acts: seq<Action>, pid: nat)
    requires FreshIds(cfg) && pid in Run(cfg, acts).procs
    ensures var w := Run(cfg, acts); var p := w.procs[pid];
            p.upload in cfg.commands
            && (p.pc.Done? && p.pc.outcome.AcceptedOutcome? ==> Logged(w.log, cfg.commands[p.upload]))
  {
    RunInv(cfg, acts);
    assert ProcOk(cfg, Run(cfg, acts).log, Run(cfg, acts).procs[pid]);
  }

  /** Every logged event is of the document of the upload it names, by its owner, and carries what was declared for
      it. */
  lemma EventsDescribeUploads(cfg: Config, acts: seq<Action>, k: Key, i: nat)
    requires FreshIds(cfg) && i < |Stream(Run(cfg, acts).log, k)|
    ensures var e := Stream(Run(cfg, acts).log, k)[i].event;
            && BlobRef(e.payload).Some? && BlobRef(e.payload).value in cfg.commands
            && var c := cfg.commands[BlobRef(e.payload).value];
               && k == Key(c.tenantId, c.documentId) && e.tenantId == c.tenantId && e.documentId == c.documentId
               && e.actor == User(c.ownerUserId) && FactsOf(e.payload).Some?
               && var facts := FactsOf(e.payload).value;
                  && facts.blobRef == c.uploadId && facts.filename == c.filename
                  && facts.contentType == c.contentType && facts.byteSize == c.declaredSize
  {
    var log := Run(cfg, acts).log;
    RunInv(cfg, acts);
    assert StreamOk(cfg, k, Stream(log, k), log.head);
    assert EntryOk(cfg, k, i, Stream(log, k)[i]);
  }

  lemma {:induction false} StreamFolds(cfg: Config, k: Key, xs: seq<Entry>, head: nat, n: nat)
    requires StreamOk(cfg, k, xs, head) && 0 < n <= |xs|
    ensures var r := FoldHistory(xs[..n]);
            r.Ok? && r.value.Some? && r.value.value.version == n
            && r.value.value.documentId == k.doc && r.value.value.streamSeq == xs[n - 1].seqNo
  {
    assert EntryOk(cfg, k, n - 1, xs[n - 1]);
    assert xs[..n][..n - 1] == xs[..n - 1];
    if n > 1 {
      StreamFolds(cfg, k, xs, head, n - 1);
    }
  }

  /** One create and only at the front, versions 1, 2, 3, ..., and a history that folds to the stored tail. */
  ghost predicate WellFormedStream(log: Log, k: Key) {
    var xs := Stream(log, k);
    && OrderedStream(xs, log.head)
    && (forall i :: 0 <= i < |xs| ==> xs[i].event.version == i + 1)
    && (forall i :: 0 <= i < |xs| ==> (xs[i].event.payload.DocumentCreated? <==> i == 0))
    && FoldsToTail(FoldHistory(xs), |xs|, Last(log, k))
  }

  predicate FoldsToTail(r: Result<Option<DocumentState>, FoldError>, n: nat, last: Option<Tail>) {
    match r
    case Ok(Some(s)) => last == Some(Tail(s.version, s.streamSeq)) && s.version == n
    case Ok(None) => last.None?
    case Err(_) => false
  }

  lemma StreamFacts(cfg: Config, log: Log, k: Key)
    requires StreamOk(cfg, k, Stream(log, k), log.head)
    ensures WellFormedStream(log, k)
  {
    var xs := Stream(log, k);
    assert forall i :: 0 <= i < |xs| ==> EntryOk(cfg, k, i, xs[i]);
    if xs != [] {
      StreamFolds(cfg, k, xs, log.head, |xs|);
      assert xs[..|xs|] == xs;
    }
  }

  /** Every reachable stream has strictly increasing sequences, one create and only at the front, and versions 1, 2,
      3, ...; so folding its history never fails and gives the version the store reports as last. */
  lemma StreamsAreWellFormed(cfg: Config, acts: seq<Action>, k: Key)
    requires FreshIds(cfg)
    ensures WellFormedStream(Run(cfg, acts).log, k)
  {
    RunInv(cfg, acts);
    StreamFacts(cfg, Run(cfg, acts).log, k);
  }
}
