/** An upload contributes at most one event, however many deliveries of it overlap. */
module WorkerUnique {
  import opened Wrappers
  import opened Domain
  import opened Fold
  import opened Subject
  import opened EventStore
  import opened UploadRecord
  import opened BlobStore
  import opened Worker
  import opened WorkerLog

  predicate AtMostOnce(xs: seq<Entry>) {
    forall i, j :: 0 <= i < j < |xs| ==> BlobRef(xs[i].event.payload) != BlobRef(xs[j].event.payload)
  }

  predicate Remembers(log: Log, c: Command) {
    SeenKey(DocKey(c), EventIdOf(c)) in log.seen
  }

  /** A delivery past its guard that can still land an event: it will read the tail, it holds the current one, or it
      has attempts left to read it again. */
  predicate CanLand(log: Log, c: Command, pc: Pc) {
    || pc.LastForUpdate?
    || (pc.AppendUpdate? && (LastSeq(Stream(log, DocKey(c))) == pc.seqNo || pc.attempt + 1 < UPDATE_ATTEMPTS))
  }

  predicate Guarded(log: Log, c: Command, pc: Pc) {
    CanLand(log, c, pc) && Logged(log, c) ==> Remembers(log, c)
  }

  ghost predicate UniqueInv(cfg: Config, w: World) {
    && (forall k: Key :: AtMostOnce(Stream(w.log, k)))
    && forall p :: p in w.procs && w.procs[p].upload in cfg.commands ==>
         Guarded(w.log, cfg.commands[w.procs[p].upload], w.procs[p].pc)
  }

  lemma PublishUnique(log: Log, c: Command, e: DocumentEvent, x: Expect, k: Key)
    requires AtMostOnce(Stream(log, k))
    requires Names(e, c.uploadId) && KeyOf(e) == DocKey(c)
    requires Lands(log, e, x) ==> !Logged(log, c)
    ensures AtMostOnce(Stream(Publish(log, e, x), k))
  {
    if Lands(log, e, x) && k == KeyOf(e) {
      assert Stream(Publish(log, e, x), k) == Stream(log, k) + [Entry(log.head + 1, e)];
    }
  }

  predicate HoldsTail(log: Log, d: Command, pc: Pc) {
    pc.AppendUpdate? ==> HasTail(Stream(log, DocKey(d)), pc.version, pc.seqNo)
  }

  /** A publish for one upload keeps another delivery's guard good: a tail that is stale stays stale. */
  lemma PublishGuard(log: Log, c: Command, e: DocumentEvent, x: Expect, d: Command, pc: Pc)
    requires Names(e, c.uploadId) && KeyOf(e) == DocKey(c) && e.eventId == EventIdOf(c)
    requires OrderedStream(Stream(log, DocKey(d)), log.head) && HoldsTail(log, d, pc)
    requires Guarded(log, d, pc) && (d.uploadId == c.uploadId ==> d == c)
    ensures Guarded(Publish(log, e, x), d, pc)
  {
    var n := Publish(log, e, x);
    var xs, ys := Stream(log, DocKey(d)), Stream(n, DocKey(d));
    if CanLand(n, d, pc) && Logged(n, d) && d != c {
      var i :| 0 <= i < |ys| && Names(ys[i].event, d.uploadId);
      assert i < |xs| && xs[i] == ys[i];
      assert Logged(log, d);
      assert ys == xs || LastSeq(ys) == log.head + 1;
    }
  }

  /** A delivery allowed to append has not been logged yet. */
  lemma AppendsOnlyUnlogged(cfg: Config, log: Log, c: Command, ask: Ask, pc: Pc, now: int)
    requires FreshIds(cfg) && LogOk(cfg, log) && CommandOf(cfg, c.uploadId, c) && PcOk(cfg, log, c, pc)
    requires Guarded(log, c, pc)
    ensures pc.AppendCreate? && Lands(log, CreateEvent(c, ask, pc, now), CreateOnly) ==> !Logged(log, c)
    ensures pc.AppendUpdate? && Lands(log, UpdateEvent(c, ask, pc), Exactly(pc.seqNo)) ==> !Logged(log, c)
  {
    if pc.AppendCreate? && Lands(log, CreateEvent(c, ask, pc, now), CreateOnly) {
      CreateEntryOk(cfg, log, c, ask, pc, now);
    }
  }

  lemma LogEffectUnique(cfg: Config, log: Log, c: Command, ask: Ask, pc: Pc, port: Port, now: int, k: Key)
    requires FreshIds(cfg) && LogOk(cfg, log) && CommandOf(cfg, c.uploadId, c) && PcOk(cfg, log, c, pc)
    requires Guarded(log, c, pc) && AtMostOnce(Stream(log, k))
    ensures AtMostOnce(Stream(NextLog(c, ask, pc, log, port, now), k))
  {
    AppendsOnlyUnlogged(cfg, log, c, ask, pc, now);
    if pc.AppendCreate? {
      PublishUnique(log, c, CreateEvent(c, ask, pc, now), CreateOnly, k);
    } else if pc.AppendUpdate? {
      PublishUnique(log, c, UpdateEvent(c, ask, pc), Exactly(pc.seqNo), k);
    }
  }

  lemma LogEffectGuard(cfg: Config, log: Log, c: Command, ask: Ask, pc: Pc, port: Port, now: int, d: Command, other: Pc)
    requires FreshIds(cfg) && CommandOf(cfg, c.uploadId, c) && CommandOf(cfg, d.uploadId, d) && PcOk(cfg, log, c, pc)
    requires Guarded(log, d, other) && OrderedStream(Stream(log, DocKey(d)), log.head)
    requires pc.AppendCreate? || pc.AppendUpdate? ==> HoldsTail(log, d, other)
    ensures Guarded(NextLog(c, ask, pc, log, port, now), d, other)
  {
    if pc.AppendCreate? {
      PublishGuard(log, c, CreateEvent(c, ask, pc, now), CreateOnly, d, other);
    } else if pc.AppendUpdate? {
      PublishGuard(log, c, UpdateEvent(c, ask, pc), Exactly(pc.seqNo), d, other);
    }
  }

  /** The delivery's own next point: it passes the guard only on a history that does not name it. */
  lemma OwnGuard(cfg: Config, log: Log, b: Blobs, rs: Records, c: Command, ask: Ask, last: bool, pc: Pc, port: Port,
                 now: int)
    requires Guarded(log, c, pc)
    ensures Guarded(log, c, NextPc(cfg, c, ask, last, pc, log, b, rs, port, now))
  {
    FindBlobLogged(log, c);
    if CanLand(log, c, NextPc(cfg, c, ask, last, pc, log, b, rs, port, now)) {
      assert pc.ReadHistory? || CanLand(log, c, pc);
    }
  }

  lemma OwnStepGuard(cfg: Config, log: Log, b: Blobs, rs: Records, c: Command, ask: Ask, last: bool, pc: Pc,
                     port: Port, now: int, next: Pc)
    requires FreshIds(cfg) && LogOk(cfg, log) && CommandOf(cfg, c.uploadId, c) && PcOk(cfg, log, c, pc)
    requires Guarded(log, c, pc) && next == NextPc(cfg, c, ask, last, pc, log, b, rs, port, now)
    ensures Guarded(NextLog(c, ask, pc, log, port, now), c, next)
  {
    OwnGuard(cfg, log, b, rs, c, ask, last, pc, port, now);
    assert StreamOk(cfg, DocKey(c), Stream(log, DocKey(c)), log.head);
    LogEffectGuard(cfg, log, c, ask, pc, port, now, c, next);
  }

  lemma OtherGuard(cfg: Config, w: World, pid: nat, port: Port, now: int, q: nat, c: Command, ask: Ask, d: Command)
    requires FreshIds(cfg) && Inv(cfg, w) && UniqueInv(cfg, w) && pid in w.procs && q in w.procs
    requires CommandOf(cfg, w.procs[pid].upload, c) && CommandOf(cfg, w.procs[q].upload, d)
    ensures Guarded(NextLog(c, ask, w.procs[pid].pc, w.log, port, now), d, w.procs[q].pc)
  {
    assert ProcOk(cfg, w.log, w.procs[pid]) && ProcOk(cfg, w.log, w.procs[q]);
    assert StreamOk(cfg, DocKey(d), Stream(w.log, DocKey(d)), w.log.head);
    LogEffectGuard(cfg, w.log, c, ask, w.procs[pid].pc, port, now, d, w.procs[q].pc);
  }

  lemma StepGuards(cfg: Config, w: World, pid: nat, port: Port, now: int, n: World)
    requires FreshIds(cfg) && Inv(cfg, w) && UniqueInv(cfg, w) && pid in w.procs && w.procs[pid].upload in cfg.commands
    requires n == StepProc(cfg, w, pid, port, now)
    ensures forall q :: q in n.procs && n.procs[q].upload in cfg.commands ==>
              Guarded(n.log, cfg.commands[n.procs[q].upload], n.procs[q].pc)
  {
    var p := w.procs[pid];
    var c := cfg.commands[p.upload];
    assert ProcOk(cfg, w.log, p);
    OwnStepGuard(cfg, w.log, w.blobs, w.records, c, p.ask, p.last, p.pc, port, now, n.procs[pid].pc);
    forall q | q in n.procs && q != pid && n.procs[q].upload in cfg.commands
      ensures Guarded(n.log, cfg.commands[n.procs[q].upload], n.procs[q].pc)
    {
      OtherGuard(cfg, w, pid, port, now, q, c, p.ask, cfg.commands[n.procs[q].upload]);
    }
  }

  lemma StepProcUnique(cfg: Config, w: World, pid: nat, port: Port, now: int)
    requires FreshIds(cfg) && Inv(cfg, w) && UniqueInv(cfg, w) && pid in w.procs && w.procs[pid].upload in cfg.commands
    ensures UniqueInv(cfg, StepProc(cfg, w, pid, port, now))
  {
    var p := w.procs[pid];
    var n := StepProc(cfg, w, pid, port, now);
    assert ProcOk(cfg, w.log, p);
    forall k: Key
      ensures AtMostOnce(Stream(n.log, k))
    {
      LogEffectUnique(cfg, w.log, cfg.commands[p.upload], p.ask, p.pc, port, now, k);
    }
    StepGuards(cfg, w, pid, port, now, n);
  }

  /** The dedupe table may forget an upload unless it is logged and one of its deliveries can still land an event. */
  predicate SafeForget(cfg: Config, w: World, a: Action) {
    a.Forgets? && a.u in cfg.commands && Logged(w.log, cfg.commands[a.u]) ==>
      forall p :: p in w.procs && w.procs[p].upload == a.u ==> !CanLand(w.log, cfg.commands[a.u], w.procs[p].pc)
  }

  function Forgetting(log: Log, c: Command): Log {
    log.(seen := log.seen - {SeenKey(DocKey(c), EventIdOf(c))})
  }

  lemma ForgetGuard(log: Log, c: Command, d: Command, pc: Pc)
    requires Guarded(log, d, pc) && (d.uploadId == c.uploadId ==> d == c && (Logged(log, c) ==> !CanLand(log, c, pc)))
    ensures Guarded(Forgetting(log, c), d, pc)
  {
    assert Stream(Forgetting(log, c), DocKey(d)) == Stream(log, DocKey(d));
  }

  lemma ForgetUnique(cfg: Config, w: World, u: Id)
    requires FreshIds(cfg) && Inv(cfg, w) && UniqueInv(cfg, w) && SafeForget(cfg, w, Forgets(u)) && u in cfg.commands
    ensures UniqueInv(cfg, w.(log := Forgetting(w.log, cfg.commands[u])))
  {
    var c := cfg.commands[u];
    var log := Forgetting(w.log, c);
    assert forall k: Key :: Stream(log, k) == Stream(w.log, k);
    forall q | q in w.procs && w.procs[q].upload in cfg.commands
      ensures Guarded(log, cfg.commands[w.procs[q].upload], w.procs[q].pc)
    {
      assert ProcOk(cfg, w.log, w.procs[q]);
      ForgetGuard(w.log, c, cfg.commands[w.procs[q].upload], w.procs[q].pc);
    }
  }

  lemma StepUnique(cfg: Config, w: World, a: Action)
    requires FreshIds(cfg) && Inv(cfg, w) && UniqueInv(cfg, w) && SafeForget(cfg, w, a)
    ensures UniqueInv(cfg, Next(cfg, w, a))
  {
    if a.Steps? {
      if a.pid in w.procs && w.procs[a.pid].upload in cfg.commands {
        StepProcUnique(cfg, w, a.pid, a.port, a.now);
      }
    } else if a.Forgets? {
      if a.u in cfg.commands {
        ForgetUnique(cfg, w, a.u);
      }
    } else {
      assert Next(cfg, w, a).log == w.log;
    }
  }

  /** Every step of the run forgets safely. */
  ghost predicate SafeRun(cfg: Config, acts: seq<Action>) {
    acts == []
    || (var n := |acts| - 1;
        SafeRun(cfg, acts[..n]) && SafeForget(cfg, Run(cfg, acts[..n]), acts[n]))
  }

  lemma {:induction false} RunUnique(cfg: Config, acts: seq<Action>)
    requires FreshIds(cfg) && SafeRun(cfg, acts)
    ensures UniqueInv(cfg, Run(cfg, acts))
  {
    if acts != [] {
      var n := |acts| - 1;
      var init := acts[..n];
      RunUnique(cfg, init);
      RunInv(cfg, init);
      StepUnique(cfg, Run(cfg, init), acts[n]);
    }
  }

  /** An event's place in the log. */
  predicate At(log: Log, u: Id, k: Key, i: nat) {
    i < |Stream(log, k)| && Names(Stream(log, k)[i].event, u)
  }

  lemma PlaceIsItsDocument(cfg: Config, log: Log, u: Id, k: Key, i: nat)
    requires LogOk(cfg, log) && At(log, u, k, i)
    ensures u in cfg.commands && k == DocKey(cfg.commands[u]) && (cfg.commands[u].mode.Create? ==> i == 0)
  {
    assert StreamOk(cfg, k, Stream(log, k), log.head);
    assert EntryOk(cfg, k, i, Stream(log, k)[i]);
  }

  /** Theorem: under every interleaving of any number of overlapping deliveries, with crashes, lost replies and expiry
      anywhere, an upload contributes at most one event to the whole log. */
  lemma OneEventPerUpload(cfg: Config, acts: seq<Action>, u: Id, k: Key, i: nat, l: Key, j: nat)
    requires FreshIds(cfg) && SafeRun(cfg, acts)
    requires At(Run(cfg, acts).log, u, k, i) && At(Run(cfg, acts).log, u, l, j)
    ensures k == l && i == j
  {
    var log := Run(cfg, acts).log;
    RunInv(cfg, acts);
    RunUnique(cfg, acts);
    PlaceIsItsDocument(cfg, log, u, k, i);
    PlaceIsItsDocument(cfg, log, u, l, j);
    assert AtMostOnce(Stream(log, k));
  }

  /** Theorem: an upload that creates a document contributes at most one event even if the dedupe table forgets
      anything at any time. */
  lemma OneEventPerCreate(cfg: Config, acts: seq<Action>, u: Id, k: Key, i: nat, l: Key, j: nat)
    requires FreshIds(cfg) && u in cfg.commands && cfg.commands[u].mode.Create?
    requires At(Run(cfg, acts).log, u, k, i) && At(Run(cfg, acts).log, u, l, j)
    ensures k == l && i == j
  {
    RunInv(cfg, acts);
    PlaceIsItsDocument(cfg, Run(cfg, acts).log, u, k, i);
    PlaceIsItsDocument(cfg, Run(cfg, acts).log, u, l, j);
  }

  // ------------------------------------------------------------------ the condition is exact

  predicate Twice(log: Log, u: Id, k: Key) {
    exists i, j :: 0 <= i < j < |Stream(log, k)| && At(log, u, k, i) && At(log, u, k, j)
  }

  /** A logged upload that is not remembered, and a delivery of it that can land. */
  predicate Exposed(cfg: Config, w: World, u: Id, pid: nat) {
    && u in cfg.commands && pid in w.procs && w.procs[pid].upload == u
    && Logged(w.log, cfg.commands[u]) && !Remembers(w.log, cfg.commands[u])
    && CanLand(w.log, cfg.commands[u], w.procs[pid].pc)
  }

  lemma PublishTwice(log: Log, c: Command, e: DocumentEvent, x: Expect)
    requires Logged(log, c) && Lands(log, e, x) && KeyOf(e) == DocKey(c) && Names(e, c.uploadId)
    ensures Twice(Publish(log, e, x), c.uploadId, DocKey(c))
  {
    var xs, n := Stream(log, DocKey(c)), Publish(log, e, x);
    assert Stream(n, DocKey(c)) == xs + [Entry(log.head + 1, e)];
    var i :| 0 <= i < |xs| && Names(xs[i].event, c.uploadId);
    assert At(n, c.uploadId, DocKey(c), i) && At(n, c.uploadId, DocKey(c), |xs|);
  }

  lemma LandsAgain(cfg: Config, w: World, u: Id, pid: nat, now: int, c: Command, ask: Ask, pc: Pc)
    requires FreshIds(cfg) && Inv(cfg, w) && Exposed(cfg, w, u, pid)
    requires c == cfg.commands[u] && ask == w.procs[pid].ask && pc == w.procs[pid].pc && pc.AppendUpdate?
    requires LastSeq(Stream(w.log, DocKey(c))) == pc.seqNo
    ensures Twice(Next(cfg, w, Steps(pid, Works, now)).log, u, DocKey(c))
  {
    assert ProcOk(cfg, w.log, w.procs[pid]);
    assert Next(cfg, w, Steps(pid, Works, now)).log == Publish(w.log, UpdateEvent(c, ask, pc), Exactly(pc.seqNo));
    PublishTwice(w.log, c, UpdateEvent(c, ask, pc), Exactly(pc.seqNo));
  }

  /** A delivery that reads the tail next holds the current one after that. */
  lemma ReadsTail(cfg: Config, w: World, u: Id, pid: nat, now: int, n: World)
    requires Exposed(cfg, w, u, pid) && w.procs[pid].pc.LastForUpdate? && n == Next(cfg, w, Steps(pid, Works, now))
    ensures Exposed(cfg, n, u, pid) && n.procs[pid].pc.AppendUpdate?
    ensures LastSeq(Stream(n.log, DocKey(cfg.commands[u]))) == n.procs[pid].pc.seqNo
  {
    assert n.log == w.log;
  }

  /** A delivery with a stale tail and attempts left reads it again. */
  lemma LosesTail(cfg: Config, w: World, u: Id, pid: nat, now: int, n: World)
    requires FreshIds(cfg) && Inv(cfg, w) && Exposed(cfg, w, u, pid) && w.procs[pid].pc.AppendUpdate?
    requires LastSeq(Stream(w.log, DocKey(cfg.commands[u]))) != w.procs[pid].pc.seqNo
    requires n == Next(cfg, w, Steps(pid, Works, now))
    ensures Exposed(cfg, n, u, pid) && n.procs[pid].pc.LastForUpdate?
  {
    var c := cfg.commands[u];
    assert ProcOk(cfg, w.log, w.procs[pid]);
    assert PublishReply(w.log, UpdateEvent(c, w.procs[pid].ask, w.procs[pid].pc), Exactly(w.procs[pid].pc.seqNo)).Err?;
    assert n.log == w.log;
  }

  /** How many working calls it takes. */
  function CallsToLand(log: Log, c: Command, pc: Pc): nat {
    if pc.LastForUpdate? then 2
    else if pc.AppendUpdate? && LastSeq(Stream(log, DocKey(c))) == pc.seqNo then 1
    else 3
  }

  lemma ExposedDuplicates(cfg: Config, w: World, u: Id, pid: nat, now: int)
    requires FreshIds(cfg) && Inv(cfg, w) && Exposed(cfg, w, u, pid)
    ensures var c := cfg.commands[u];
            Twice(Play(cfg, w, Calls(pid, now, CallsToLand(w.log, c, w.procs[pid].pc))).log, u, DocKey(c))
    decreases CallsToLand(w.log, cfg.commands[u], w.procs[pid].pc)
  {
    var c := cfg.commands[u];
    var a := Steps(pid, Works, now);
    var m := Next(cfg, w, a);
    StepInv(cfg, w, a);
    if w.procs[pid].pc.LastForUpdate? {
      ReadsTail(cfg, w, u, pid, now, m);
      ExposedDuplicates(cfg, m, u, pid, now);
    } else if LastSeq(Stream(w.log, DocKey(c))) == w.procs[pid].pc.seqNo {
      LandsAgain(cfg, w, u, pid, now, c, w.procs[pid].ask, w.procs[pid].pc);
    } else {
      LosesTail(cfg, w, u, pid, now, m);
      ExposedDuplicates(cfg, m, u, pid, now);
    }
    PlayCalls(cfg, w, pid, now, 1, CallsToLand(w.log, c, w.procs[pid].pc) - 1);
    PlayCall(cfg, w, pid, now, 0);
  }

  /** `SafeForget` is exact: wherever it fails, at most three working calls of one delivery log the upload twice. */
  lemma UnsafeForgetDuplicates(cfg: Config, w: World, a: Action, now: int)
    requires FreshIds(cfg) && Inv(cfg, w) && !SafeForget(cfg, w, a)
    ensures a.Forgets? && a.u in cfg.commands
    ensures exists pid: nat, n: nat ::
              n <= 3 && Twice(Play(cfg, Next(cfg, w, a), Calls(pid, now, n)).log, a.u, DocKey(cfg.commands[a.u]))
  {
    var c := cfg.commands[a.u];
    var m := Next(cfg, w, a);
    var pid :| pid in w.procs && w.procs[pid].upload == a.u && CanLand(w.log, c, w.procs[pid].pc);
    StepInv(cfg, w, a);
    ForgottenIsExposed(cfg, w, a.u, pid, m);
    ExposedDuplicates(cfg, m, a.u, pid, now);
    var n := CallsToLand(m.log, c, m.procs[pid].pc);
    assert n <= 3 && Twice(Play(cfg, m, Calls(pid, now, n)).log, a.u, DocKey(c));
  }

  lemma ForgottenIsExposed(cfg: Config, w: World, u: Id, pid: nat, m: World)
    requires u in cfg.commands && Logged(w.log, cfg.commands[u]) && m == Next(cfg, w, Forgets(u))
    requires pid in w.procs && w.procs[pid].upload == u && CanLand(w.log, cfg.commands[u], w.procs[pid].pc)
    ensures Exposed(cfg, m, u, pid) && m.procs == w.procs
  {
    assert Stream(m.log, DocKey(cfg.commands[u])) == Stream(w.log, DocKey(cfg.commands[u]));
  }
}
