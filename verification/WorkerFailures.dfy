/** Runs that show where the guarantees end. For every create upload whose bytes pass verification there is a run in
    which a final delivery, or an overlapping one, deletes bytes that a logged event names. For every replace upload
    of its document there is a run in which forgetting logs the upload twice. */
module WorkerFailures {
  import opened Wrappers
  import opened Domain
  import opened Fold
  import opened EventStore
  import opened UploadRecord
  import opened BlobStore
  import opened Worker
  import opened WorkerLog
  import opened WorkerProgress
  import opened WorkerUnique
  import opened WorkerSerial
  import opened WorkerAnswers

  // ------------------------------------------------------------------ runs without final deliveries

  predicate NonFinal(acts: seq<Action>) {
    forall a <- acts :: a.Delivers? ==> !a.last
  }

  predicate NoneLast(w: World) {
    forall p :: p in w.procs ==> !w.procs[p].last
  }

  lemma StepNoneLast(cfg: Config, w: World, a: Action)
    requires NoneLast(w) && (a.Delivers? ==> !a.last)
    ensures NoneLast(Next(cfg, w, a))
  {
  }

  lemma {:induction false} RunNoneLast(cfg: Config, acts: seq<Action>)
    requires NonFinal(acts)
    ensures NoneLast(Run(cfg, acts))
  {
    if acts != [] {
      var n := |acts| - 1;
      RunNoneLast(cfg, acts[..n]);
      assert acts[n] in acts;
      StepNoneLast(cfg, Run(cfg, acts[..n]), acts[n]);
    }
  }

  /** Without final deliveries, one delivery in flight per upload is all that is asked of a run. */
  lemma {:induction false} NonFinalRunsAreSafe(cfg: Config, acts: seq<Action>)
    requires NonFinal(acts) && OneInFlight(cfg, acts)
    ensures SerialRun(cfg, acts)
  {
    if acts != [] {
      NonFinalRunsAreSafe(cfg, acts[..|acts| - 1]);
      RunNoneLast(cfg, acts[..|acts| - 1]);
    }
  }

  // ------------------------------------------------------------------ playing runs

  lemma Push(cfg: Config, acts: seq<Action>, a: Action)
    ensures Run(cfg, acts + [a]) == Next(cfg, Run(cfg, acts), a)
  {
    assert (acts + [a])[..|acts|] == acts;
  }

  lemma {:induction false} RunCalls(cfg: Config, acts: seq<Action>, pid: nat, n: nat)
    ensures Run(cfg, acts + Calls(pid, 0, n)) == Play(cfg, Run(cfg, acts), Calls(pid, 0, n))
  {
    if n == 0 {
      assert acts + Calls(pid, 0, 0) == acts;
    } else {
      RunCalls(cfg, acts, pid, n - 1);
      assert acts + Calls(pid, 0, n) == acts + Calls(pid, 0, n - 1) + [Steps(pid, Works, 0)];
      Push(cfg, acts + Calls(pid, 0, n - 1), Steps(pid, Works, 0));
      PlayCall(cfg, Run(cfg, acts), pid, 0, n - 1);
    }
  }

  // ------------------------------------------------------------------ the way to an append

  /** An upload, its record at preflight, its bytes, and a request to complete it. */
  datatype Case = Case(u: Id, pre: Preflight, bytes: Bytes, ask: Ask)

  /** Bytes that pass verification. */
  predicate Verifies(cfg: Config, x: Case) {
    && x.u in cfg.commands
    && var c := cfg.commands[x.u];
       && c.uploadId == x.u && OwnKey(x.pre) == Record(c) && Passes(cfg, c, x.bytes)
  }

  /** A preflight, one part, and a delivery. */
  function Opening(x: Case, pid: nat): seq<Action> {
    [Preflights(x.u, x.pre, 0)] + [UploadsPart(x.u, Part(1, "tag", x.bytes))] + [Delivers(pid, x.u, x.ask, false)]
  }

  function Opened(w: World, c: Command, x: Case, pid: nat): World {
    w.(begun := w.begun + {c.uploadId},
       blobs := w.blobs.(multiparts := w.blobs.multiparts[Multipart(c) := [Part(1, "tag", x.bytes)]]),
       records := w.records[Record(c) := Stored(UploadState(x.pre, Uploading, 0), 1)],
       procs := w.procs[pid := Proc(c.uploadId, x.ask, false, LoadRecord)])
  }

  lemma Opens(cfg: Config, acts: seq<Action>, w: World, x: Case, pid: nat, c: Command)
    requires Verifies(cfg, x) && c == cfg.commands[x.u] && w == Run(cfg, acts)
    requires x.u !in w.begun && Record(c) !in w.records && pid !in w.procs
    ensures Run(cfg, acts + Opening(x, pid)) == Opened(w, c, x, pid)
  {
    var p, q := Preflights(x.u, x.pre, 0), UploadsPart(x.u, Part(1, "tag", x.bytes));
    var d := Delivers(pid, x.u, x.ask, false);
    Push(cfg, acts, p);
    Push(cfg, acts + [p], q);
    Push(cfg, acts + [p] + [q], d);
    assert acts + Opening(x, pid) == acts + [p] + [q] + [d];
    OpensFrom(cfg, w, x, pid, c, Next(cfg, w, p));
  }

  lemma OpensFrom(cfg: Config, w: World, x: Case, pid: nat, c: Command, w1: World)
    requires Verifies(cfg, x) && c == cfg.commands[x.u] && w1 == Next(cfg, w, Preflights(x.u, x.pre, 0))
    requires x.u !in w.begun && Record(c) !in w.records && pid !in w.procs
    ensures Next(cfg, Next(cfg, w1, UploadsPart(x.u, Part(1, "tag", x.bytes))), Delivers(pid, x.u, x.ask, false))
            == Opened(w, c, x, pid)
  {
    assert w1.blobs.multiparts == w.blobs.multiparts[Multipart(c) := []] && w1.begun == w.begun + {x.u};
    var w2 := Next(cfg, w1, UploadsPart(x.u, Part(1, "tag", x.bytes)));
    assert w2.blobs.multiparts == w.blobs.multiparts[Multipart(c) := [Part(1, "tag", x.bytes)]];
  }

  /** The state in which the delivery has assembled and verified the upload. */
  function Ready(cfg: Config, w: World, c: Command, x: Case, pid: nat): World {
    w.(begun := w.begun + {c.uploadId},
       blobs := Blobs(w.blobs.multiparts - {Multipart(c)}, w.blobs.objects[Object(c) := x.bytes]),
       records := w.records[Record(c) := Stored(UploadState(x.pre, Uploading, 0), 1)],
       procs := w.procs[pid := Proc(c.uploadId, x.ask, false, Cleared(c, Checksum(cfg, x.bytes)))])
  }

  /** Eight working calls after the delivery it is about to ask the log. */
  lemma GetsReady(cfg: Config, acts: seq<Action>, w: World, x: Case, pid: nat, c: Command)
    requires Verifies(cfg, x) && c == cfg.commands[x.u] && w == Run(cfg, acts)
    requires x.u !in w.begun && Record(c) !in w.records && pid !in w.procs
    ensures Run(cfg, acts + Opening(x, pid) + Calls(pid, 0, 8)) == Ready(cfg, w, c, x, pid)
  {
    Opens(cfg, acts, w, x, pid, c);
    RunCalls(cfg, acts + Opening(x, pid), pid, 8);
    OpenedGetsReady(cfg, w, x, pid, c, Opened(w, c, x, pid));
  }

  lemma OpenedGetsReady(cfg: Config, w: World, x: Case, pid: nat, c: Command, o: World)
    requires Verifies(cfg, x) && c == cfg.commands[x.u] && o == Opened(w, c, x, pid)
    ensures Play(cfg, o, Calls(pid, 0, 8)) == Ready(cfg, w, c, x, pid)
  {
    var parts := [Part(1, "tag", x.bytes)];
    OnePart(parts, x.bytes);
    AnyListingClears(cfg, o, pid, 0, c, parts, x.bytes);
    ReadyIs(cfg, w, c, x, pid, o);
  }

  lemma OnePart(parts: seq<Part>, bytes: Bytes)
    requires parts == [Part(1, "tag", bytes)]
    ensures Concatenated(SortParts(parts)) == bytes
  {
    assert parts[1..] == [] && SortParts(parts) == parts && parts[..0] == [];
    assert [] + bytes == bytes;
  }

  lemma ReadyIs(cfg: Config, w: World, c: Command, x: Case, pid: nat, o: World)
    requires o == Opened(w, c, x, pid)
    ensures SetPc(o.(blobs := Joined(o.blobs, c, x.bytes)), pid, Cleared(c, Checksum(cfg, x.bytes)))
            == Ready(cfg, w, c, x, pid)
  {
    assert o.blobs.multiparts - {Multipart(c)} == w.blobs.multiparts - {Multipart(c)};
  }

  predicate Creates(cfg: Config, x: Case) {
    Verifies(cfg, x) && cfg.commands[x.u].mode.Create?
  }

  function UpToAppend(x: Case): seq<Action> {
    [] + Opening(x, 0) + Calls(0, 0, 8)
  }

  lemma ReachesAppend(cfg: Config, x: Case, c: Command)
    requires Creates(cfg, x) && c == cfg.commands[x.u]
    ensures Run(cfg, UpToAppend(x)) == Ready(cfg, EMPTY, c, x, 0)
    ensures var w := Run(cfg, UpToAppend(x));
            && w.log == Log(map[], map[], 0) && w.begun == {x.u} && w.blobs == Blobs(map[], map[Object(c) := x.bytes])
            && w.procs == map[0 := Proc(x.u, x.ask, false, AppendCreate(Checksum(cfg, x.bytes)))]
  {
    GetsReady(cfg, [], EMPTY, x, 0, c);
  }

  // ------------------------------------------------------------------ a final delivery

  /** The append lands but its reply is lost; the work item comes back for the last time and its first read fails. */
  function FinalDelivery(x: Case): seq<Action> {
    UpToAppend(x) + [Steps(0, LostReply, 0)] + [Delivers(1, x.u, x.ask, true)] + [Steps(1, Down, 0)]
    + [Steps(1, Works, 0)] + [Steps(1, Works, 0)]
  }

  /** Serial deliveries are not enough: a final one can delete bytes that a logged event names. */
  lemma FinalDeliveryDestroys(cfg: Config, x: Case)
    requires Creates(cfg, x)
    ensures OneInFlight(cfg, FinalDelivery(x))
    ensures LoggedWithoutBytes(Run(cfg, FinalDelivery(x)), cfg.commands[x.u])
  {
    var c := cfg.commands[x.u];
    var a0 := UpToAppend(x);
    var a1 := a0 + [Steps(0, LostReply, 0)];
    var a2 := a1 + [Delivers(1, x.u, x.ask, true)];
    var a3 := a2 + [Steps(1, Down, 0)];
    ReachesAppend(cfg, x, c);
    Push(cfg, a0, Steps(0, LostReply, 0));
    Push(cfg, a1, Delivers(1, x.u, x.ask, true));
    Push(cfg, a2, Steps(1, Down, 0));
    Push(cfg, a3, Steps(1, Works, 0));
    Push(cfg, a3 + [Steps(1, Works, 0)], Steps(1, Works, 0));
    var w0 := Run(cfg, a0);
    LandedIsLogged(w0.log, c, CreateEvent(c, x.ask, w0.procs[0].pc, 0), CreateOnly);
    LastChance(cfg, x, c, Run(cfg, a1), Run(cfg, a2), Run(cfg, a3));
    GivesBack(cfg, Run(cfg, a3), 1, 0);
    FinalIsSerial(cfg, x);
  }

  lemma LastChance(cfg: Config, x: Case, c: Command, w1: World, w2: World, w3: World)
    requires x.u in cfg.commands && c == cfg.commands[x.u] && Logged(w1.log, c) && 1 !in w1.procs && x.u in w1.begun
    requires w2 == Next(cfg, w1, Delivers(1, x.u, x.ask, true)) && w3 == Next(cfg, w2, Steps(1, Down, 0))
    ensures Logged(w3.log, c) && 1 in w3.procs && w3.procs[1].upload == x.u && w3.procs[1].pc.AbortMultipart?
  {
  }

  lemma FinalIsSerial(cfg: Config, x: Case)
    requires Creates(cfg, x)
    ensures OneInFlight(cfg, FinalDelivery(x))
  {
    var a0 := UpToAppend(x);
    var a1 := a0 + [Steps(0, LostReply, 0)];
    var a2 := a1 + [Delivers(1, x.u, x.ask, true)];
    var a3 := a2 + [Steps(1, Down, 0)];
    AppendIsSerial(cfg, x);
    PushQuiet(cfg, a0, Steps(0, LostReply, 0));
    FirstIsDone(cfg, x, a1);
    PushSerial(cfg, a1, Delivers(1, x.u, x.ask, true));
    PushQuiet(cfg, a2, Steps(1, Down, 0));
    PushQuiet(cfg, a3, Steps(1, Works, 0));
    PushQuiet(cfg, a3 + [Steps(1, Works, 0)], Steps(1, Works, 0));
  }

  lemma FirstIsDone(cfg: Config, x: Case, a1: seq<Action>)
    requires Creates(cfg, x) && a1 == UpToAppend(x) + [Steps(0, LostReply, 0)]
    ensures SerialStep(Run(cfg, a1), Delivers(1, x.u, x.ask, true))
  {
    ReachesAppend(cfg, x, cfg.commands[x.u]);
    Push(cfg, UpToAppend(x), Steps(0, LostReply, 0));
  }

  lemma PushSerial(cfg: Config, acts: seq<Action>, a: Action)
    requires OneInFlight(cfg, acts) && SerialStep(Run(cfg, acts), a)
    ensures OneInFlight(cfg, acts + [a])
  {
    assert (acts + [a])[..|acts|] == acts;
  }

  lemma PushQuiet(cfg: Config, acts: seq<Action>, a: Action)
    requires OneInFlight(cfg, acts) && !a.Delivers?
    ensures OneInFlight(cfg, acts + [a])
  {
    PushSerial(cfg, acts, a);
  }

  predicate NoneFor(w: World, u: Id) {
    forall p :: p in w.procs ==> w.procs[p].upload != u
  }

  lemma PushDelivery(cfg: Config, acts: seq<Action>, pid: nat, x: Case)
    requires OneInFlight(cfg, acts) && NoneFor(Run(cfg, acts), x.u)
    ensures OneInFlight(cfg, acts + [Delivers(pid, x.u, x.ask, false)])
  {
    PushSerial(cfg, acts, Delivers(pid, x.u, x.ask, false));
  }

  lemma OpeningIsSerial(cfg: Config, acts: seq<Action>, x: Case, pid: nat)
    requires OneInFlight(cfg, acts) && NoneFor(Run(cfg, acts), x.u)
    ensures OneInFlight(cfg, acts + Opening(x, pid))
  {
    var p, q := Preflights(x.u, x.pre, 0), UploadsPart(x.u, Part(1, "tag", x.bytes));
    PushQuiet(cfg, acts, p);
    PushQuiet(cfg, acts + [p], q);
    StillNone(cfg, acts, p, x.u);
    StillNone(cfg, acts + [p], q, x.u);
    PushDelivery(cfg, acts + [p] + [q], pid, x);
    assert acts + Opening(x, pid) == acts + [p] + [q] + [Delivers(pid, x.u, x.ask, false)];
  }

  lemma StillNone(cfg: Config, acts: seq<Action>, a: Action, u: Id)
    requires (a.Preflights? || a.UploadsPart?) && NoneFor(Run(cfg, acts), u)
    ensures NoneFor(Run(cfg, acts + [a]), u)
  {
    Push(cfg, acts, a);
  }

  lemma AppendIsSerial(cfg: Config, x: Case)
    ensures OneInFlight(cfg, UpToAppend(x))
  {
    OpeningIsSerial(cfg, [], x, 0);
    CallsSerial(cfg, [] + Opening(x, 0), 0, 8);
  }

  lemma {:induction false} CallsSerial(cfg: Config, acts: seq<Action>, pid: nat, n: nat)
    requires OneInFlight(cfg, acts)
    ensures OneInFlight(cfg, acts + Calls(pid, 0, n))
  {
    if n == 0 {
      assert acts + Calls(pid, 0, 0) == acts;
    } else {
      CallsSerial(cfg, acts, pid, n - 1);
      assert acts + Calls(pid, 0, n) == acts + Calls(pid, 0, n - 1) + [Steps(pid, Works, 0)];
      PushQuiet(cfg, acts + Calls(pid, 0, n - 1), Steps(pid, Works, 0));
    }
  }

  // ------------------------------------------------------------------ an overlap

  /** The record lapses while the first delivery is about to append; a second one finds neither record nor event. */
  function UpToRace(x: Case): seq<Action> {
    UpToAppend(x) + [Expires(x.u)] + [Delivers(1, x.u, x.ask, false)] + [Steps(1, Works, 0)] + [Steps(1, Works, 0)]
  }

  function Overlap(x: Case): seq<Action> {
    UpToRace(x) + [Steps(0, Works, 0)] + [Steps(1, Works, 0)] + [Steps(1, Works, 0)]
  }

  /** Non-final deliveries are not enough either: two that overlap can do the same. */
  lemma OverlapRunDestroys(cfg: Config, x: Case)
    requires FreshIds(cfg) && Creates(cfg, x)
    ensures NonFinal(Overlap(x))
    ensures LoggedWithoutBytes(Run(cfg, Overlap(x)), cfg.commands[x.u])
  {
    var a4 := UpToRace(x);
    var a5 := a4 + [Steps(0, Works, 0)];
    Push(cfg, a4, Steps(0, Works, 0));
    Push(cfg, a5, Steps(1, Works, 0));
    Push(cfg, a5 + [Steps(1, Works, 0)], Steps(1, Works, 0));
    ReachesRace(cfg, x, cfg.commands[x.u]);
    OverlapDestroys(cfg, Run(cfg, a4), 0, 1, 0);
    OverlapIsNonFinal(x);
  }

  lemma OverlapIsNonFinal(x: Case)
    ensures NonFinal(Overlap(x))
  {
    assert NonFinal(UpToAppend(x));
  }

  /** One delivery about to append, another about to give the bytes back. */
  lemma ReachesRace(cfg: Config, x: Case, c: Command)
    requires Creates(cfg, x) && c == cfg.commands[x.u]
    ensures var w := Run(cfg, UpToRace(x));
            && w.log == Log(map[], map[], 0) && 0 in w.procs && 1 in w.procs
            && w.procs[0] == Proc(x.u, x.ask, false, AppendCreate(Checksum(cfg, x.bytes)))
            && w.procs[1].upload == x.u && w.procs[1].pc.AbortMultipart?
  {
    var a0 := UpToAppend(x);
    var a1 := a0 + [Expires(x.u)];
    var a2 := a1 + [Delivers(1, x.u, x.ask, false)];
    ReachesAppend(cfg, x, c);
    Push(cfg, a0, Expires(x.u));
    Push(cfg, a1, Delivers(1, x.u, x.ask, false));
    Push(cfg, a2, Steps(1, Works, 0));
    Push(cfg, a2 + [Steps(1, Works, 0)], Steps(1, Works, 0));
    FindsNothing(cfg, x, c, Run(cfg, a0), Run(cfg, a2), Run(cfg, UpToRace(x)));
  }

  lemma FindsNothing(cfg: Config, x: Case, c: Command, w0: World, w2: World, w4: World)
    requires x.u in cfg.commands && c == cfg.commands[x.u] && x.u in w0.begun && 1 !in w0.procs
    requires Stream(w0.log, DocKey(c)) == []
    requires w2 == Next(cfg, Next(cfg, w0, Expires(x.u)), Delivers(1, x.u, x.ask, false))
    requires w4 == Next(cfg, Next(cfg, w2, Steps(1, Works, 0)), Steps(1, Works, 0))
    ensures w4.log == w0.log && w4.procs.Keys == w0.procs.Keys + {1}
    ensures 0 in w0.procs ==> w4.procs[0] == w0.procs[0]
    ensures w4.procs[1].upload == x.u && w4.procs[1].pc.AbortMultipart?
  {
    var w3 := Next(cfg, w2, Steps(1, Works, 0));
    assert w3.procs[1].pc == CheckHistory;
  }

  // ------------------------------------------------------------------ forgetting

  /** A creating upload `v`, and a replacing upload `u` of its document that supersedes on conflict. */
  predicate Replaces(cfg: Config, y: Case, x: Case) {
    && Creates(cfg, y) && Verifies(cfg, x)
    && cfg.commands[x.u].mode.Replace? && x.ask.onConflict.Supersede?
    && DocKey(cfg.commands[x.u]) == DocKey(cfg.commands[y.u])
  }

  function Created(y: Case): seq<Action> {
    UpToAppend(y) + Calls(0, 0, 1)
  }

  /** The document has its first event. */
  lemma ReachesCreated(cfg: Config, y: Case, c: Command, w: World)
    requires Creates(cfg, y) && c == cfg.commands[y.u] && w == Run(cfg, Created(y))
    ensures Stream(w.log, DocKey(c)) == [Entry(1, CreatedEvent(c, y.ask, Checksum(cfg, y.bytes), 0))]
    ensures w.begun == {y.u} && w.records.Keys == {Record(c)} && w.procs.Keys == {0} && w.procs[0].upload == y.u
  {
    var a0 := UpToAppend(y);
    ReachesAppend(cfg, y, c);
    RunCalls(cfg, a0, 0, 1);
    PlayCall(cfg, Run(cfg, a0), 0, 0, 0);
  }

  /** The history a first replace reads: one create, and nothing that names it. */
  predicate JustCreated(log: Log, c: Command) {
    var xs := Stream(log, DocKey(c));
    && |xs| == 1 && xs[0].event.payload.DocumentCreated? && xs[0].event.actor.User? && xs[0].event.version == 1
    && !Names(xs[0].event, c.uploadId)
  }

  lemma PassesGuard(cfg: Config, w: World, pid: nat, c: Command, checksum: string)
    requires Stands(cfg, w, pid, c, ReadHistory(checksum)) && w.procs[pid].ask.onConflict.Supersede?
    requires JustCreated(w.log, c)
    ensures Play(cfg, w, Calls(pid, 0, 1)) == SetPc(w, pid, LastForUpdate(checksum, 0, 0))
  {
    var xs := Stream(w.log, DocKey(c));
    assert FindBlob(xs, c.uploadId).None? by {
      assert xs[1..] == [];
    }
    assert FoldHistory(xs).Ok? && FoldHistory(xs).value.Some? by {
      assert xs[..0] == [];
      assert FoldHistory(xs[..0]) == Ok(None);
    }
    PlayCall(cfg, w, pid, 0, 0);
  }

  lemma HoldsCurrentTail(cfg: Config, w: World, pid: nat, c: Command, checksum: string)
    requires Stands(cfg, w, pid, c, LastForUpdate(checksum, 0, 0)) && JustCreated(w.log, c)
    ensures Play(cfg, w, Calls(pid, 0, 1))
            == SetPc(w, pid, AppendUpdate(checksum, 0, 0, 1, LastSeq(Stream(w.log, DocKey(c)))))
  {
    PlayCall(cfg, w, pid, 0, 0);
  }

  /** One delivery of the replace holds the tail. */
  function UpToTail(y: Case, x: Case): seq<Action> {
    Created(y) + Opening(x, 1) + Calls(1, 0, 8) + Calls(1, 0, 2)
  }

  lemma ReachesTail(cfg: Config, y: Case, x: Case, c: Command, w: World)
    requires FreshIds(cfg) && Replaces(cfg, y, x) && c == cfg.commands[x.u]
    requires w == Run(cfg, UpToTail(y, x))
    ensures JustCreated(w.log, c) && Recorded(w, c) && Multipart(c) !in w.blobs.multiparts && x.u in w.begun
    ensures Object(c) in w.blobs.objects && w.blobs.objects[Object(c)] == x.bytes && w.procs.Keys == {0, 1}
    ensures Stands(cfg, w, 1, c, AppendUpdate(Checksum(cfg, x.bytes), 0, 0, 1, LastSeq(Stream(w.log, DocKey(c)))))
    ensures w.procs[1].ask == x.ask && w.procs[0].upload == y.u
  {
    var acts := Created(y);
    var w0 := Run(cfg, acts);
    ReachesCreated(cfg, y, cfg.commands[y.u], w0);
    var r := Ready(cfg, w0, c, x, 1);
    GetsReady(cfg, acts, w0, x, 1, c);
    RunCalls(cfg, acts + Opening(x, 1) + Calls(1, 0, 8), 1, 2);
    PlayCalls(cfg, r, 1, 0, 1, 1);
    PassesGuard(cfg, r, 1, c, Checksum(cfg, x.bytes));
    HoldsCurrentTail(cfg, SetPc(r, 1, LastForUpdate(Checksum(cfg, x.bytes), 0, 0)), 1, c, Checksum(cfg, x.bytes));
  }

  /** A second delivery of it passes its guard; then the first one appends. */
  function UpToForget(y: Case, x: Case): seq<Action> {
    UpToTail(y, x) + [Delivers(2, x.u, x.ask, false)] + Calls(2, 0, 8) + Calls(1, 0, 1)
  }

  lemma SecondClears(cfg: Config, w: World, x: Case, c: Command, r: World)
    requires Verifies(cfg, x) && c == cfg.commands[x.u] && c.mode.Replace?
    requires Stands(cfg, w, 2, c, LoadRecord) && Recorded(w, c) && Multipart(c) !in w.blobs.multiparts
    requires Object(c) in w.blobs.objects && w.blobs.objects[Object(c)] == x.bytes
    requires r == SetPc(w, 2, ReadHistory(Checksum(cfg, x.bytes)))
    ensures Play(cfg, w, Calls(2, 0, 7)) == r
  {
    AssembledUploadClears(cfg, w, 2, 0, c, x.bytes);
  }

  lemma SecondPasses(cfg: Config, w: World, x: Case, c: Command, checksum: string)
    requires Verifies(cfg, x) && c == cfg.commands[x.u] && c.mode.Replace? && x.ask.onConflict.Supersede?
    requires Stands(cfg, w, 2, c, LoadRecord) && w.procs[2].ask == x.ask && checksum == Checksum(cfg, x.bytes)
    requires Recorded(w, c) && Multipart(c) !in w.blobs.multiparts
    requires Object(c) in w.blobs.objects && w.blobs.objects[Object(c)] == x.bytes && JustCreated(w.log, c)
    ensures Play(cfg, w, Calls(2, 0, 8)) == SetPc(w, 2, LastForUpdate(checksum, 0, 0))
  {
    var r := SetPc(w, 2, ReadHistory(checksum));
    SecondClears(cfg, w, x, c, r);
    PlayCalls(cfg, w, 2, 0, 7, 1);
    SecondGuard(cfg, w, c, checksum, r);
  }

  lemma SecondGuard(cfg: Config, w: World, c: Command, checksum: string, r: World)
    requires Stands(cfg, w, 2, c, LoadRecord) && w.procs[2].ask.onConflict.Supersede? && JustCreated(w.log, c)
    requires r == SetPc(w, 2, ReadHistory(checksum))
    ensures Play(cfg, r, Calls(2, 0, 1)) == SetPc(w, 2, LastForUpdate(checksum, 0, 0))
  {
    PassesGuard(cfg, r, 2, c, checksum);
    SetTwice(w, 2, ReadHistory(checksum), LastForUpdate(checksum, 0, 0));
  }

  lemma FirstAppends(cfg: Config, w: World, c: Command, pc: Pc, n: World)
    requires FreshIds(cfg) && Inv(cfg, w) && 1 in w.procs && CommandOf(cfg, w.procs[1].upload, c)
    requires pc == w.procs[1].pc && pc.AppendUpdate? && pc.seqNo == LastSeq(Stream(w.log, DocKey(c)))
    requires !Logged(w.log, c) && n == Next(cfg, w, Steps(1, Works, 0))
    ensures Logged(n.log, c)
  {
    var e := UpdateEvent(c, w.procs[1].ask, pc);
    assert ProcOk(cfg, w.log, w.procs[1]);
    RememberedIsLogged(cfg, w.log, c);
    assert n.log == Publish(w.log, e, Exactly(pc.seqNo));
    LandedIsLogged(w.log, c, e, Exactly(pc.seqNo));
  }

  lemma OthersStay(cfg: Config, w: World, n: World)
    requires n == Next(cfg, w, Steps(1, Works, 0))
    ensures forall q :: q in w.procs && q != 1 ==> q in n.procs && n.procs[q] == w.procs[q]
  {
  }

  /** The upload is logged, and its second delivery can still land. */
  lemma ReachesForget(cfg: Config, y: Case, x: Case, c: Command, n: World)
    requires FreshIds(cfg) && Replaces(cfg, y, x) && c == cfg.commands[x.u]
    requires n == Run(cfg, UpToForget(y, x))
    ensures Logged(n.log, c) && 2 in n.procs && n.procs[2].upload == x.u && n.procs[2].pc.LastForUpdate?
  {
    var a0 := UpToTail(y, x);
    var a1 := a0 + [Delivers(2, x.u, x.ask, false)];
    var w0, w1 := Run(cfg, a0), Run(cfg, a1);
    ReachesTail(cfg, y, x, c, w0);
    Push(cfg, a0, Delivers(2, x.u, x.ask, false));
    SecondPasses(cfg, w1, x, c, Checksum(cfg, x.bytes));
    RunCalls(cfg, a1, 2, 8);
    var w2 := Run(cfg, a1 + Calls(2, 0, 8));
    RunInv(cfg, a1 + Calls(2, 0, 8));
    RunCalls(cfg, a1 + Calls(2, 0, 8), 1, 1);
    PlayCall(cfg, w2, 1, 0, 0);
    FirstAppends(cfg, w2, c, w2.procs[1].pc, n);
    OthersStay(cfg, w2, n);
  }

  function Forgetful(y: Case, x: Case): seq<Action> {
    UpToForget(y, x) + [Forgets(x.u)] + Calls(2, 0, 2)
  }

  /** Overlapping replaces are not safe from forgetting: in this run the dedupe table forgets the logged upload, and its
      second delivery logs it again. */
  lemma ForgettingRunDuplicates(cfg: Config, y: Case, x: Case)
    requires FreshIds(cfg) && Replaces(cfg, y, x)
    ensures !SafeForget(cfg, Run(cfg, UpToForget(y, x)), Forgets(x.u))
    ensures Twice(Run(cfg, Forgetful(y, x)).log, x.u, DocKey(cfg.commands[x.u]))
  {
    var a0 := UpToForget(y, x);
    var w := Run(cfg, a0);
    ReachesForget(cfg, y, x, cfg.commands[x.u], w);
    Push(cfg, a0, Forgets(x.u));
    var m := Run(cfg, a0 + [Forgets(x.u)]);
    RunInv(cfg, a0 + [Forgets(x.u)]);
    ForgottenIsExposed(cfg, w, x.u, 2, m);
    ExposedDuplicates(cfg, m, x.u, 2, 0);
    RunCalls(cfg, a0 + [Forgets(x.u)], 2, 2);
  }

  // ------------------------------------------------------------------ an answer after expiry

  /** The replace lands and its delivery dies; the record lapses, and the work item comes back. */
  function ExpiredRedelivery(y: Case, x: Case): seq<Action> {
    UpToTail(y, x) + [Steps(1, Works, 0)] + [Crashes(1)] + [Expires(x.u)] + [Delivers(2, x.u, x.ask, false)]
    + [Steps(2, Works, 0)] + [Steps(2, Works, 0)]
  }

  /** For every replace that named a version other than the one before its event there is a serial run without failures
      of any call in which the answer after expiry has the wrong flag. */
  lemma ExpiredFlagIsWrong(cfg: Config, y: Case, x: Case, named: nat)
    requires FreshIds(cfg) && Replaces(cfg, y, x) && x.ask.ifMatch == Some(named) && named != 1
    ensures OneInFlight(cfg, ExpiredRedelivery(y, x))
    ensures var w := Run(cfg, ExpiredRedelivery(y, x));
            && AnsweredExpired(w, 2, x.u, 2, false)
            && !OwnVersion(Stream(w.log, DocKey(cfg.commands[x.u])), cfg.commands[x.u], 2, false)
  {
    var c := cfg.commands[x.u];
    var a0 := UpToTail(y, x);
    var a1 := a0 + [Steps(1, Works, 0)];
    var a2 := a1 + [Crashes(1)];
    var a3 := a2 + [Expires(x.u)];
    var a4 := a3 + [Delivers(2, x.u, x.ask, false)];
    ReachesTail(cfg, y, x, c, Run(cfg, a0));
    RunInv(cfg, a0);
    Push(cfg, a0, Steps(1, Works, 0));
    SecondEvent(cfg, Run(cfg, a0), x, c, Run(cfg, a1));
    Push(cfg, a1, Crashes(1));
    Push(cfg, a2, Expires(x.u));
    Push(cfg, a3, Delivers(2, x.u, x.ask, false));
    Push(cfg, a4, Steps(2, Works, 0));
    Push(cfg, a4 + [Steps(2, Works, 0)], Steps(2, Works, 0));
    AnswersFromLog(cfg, x, c, Run(cfg, a1), Run(cfg, a4), Run(cfg, ExpiredRedelivery(y, x)));
    ExpiredIsSerial(cfg, y, x, c);
  }

  /** The history of the document: its create, and the replace as it was asked for. */
  predicate JustReplaced(log: Log, c: Command, ask: Ask) {
    var xs := Stream(log, DocKey(c));
    && |xs| == 2 && !Names(xs[0].event, c.uploadId) && Names(xs[1].event, c.uploadId)
    && xs[0].event.version == 1 && xs[1].event.version == 2
    && xs[1].event.payload.DocumentBlobValidated? && xs[1].event.payload.basedOnVersion == ask.ifMatch
  }

  lemma SecondEvent(cfg: Config, w: World, x: Case, c: Command, n: World)
    requires FreshIds(cfg) && Inv(cfg, w) && x.u in cfg.commands && c == cfg.commands[x.u] && c.mode.Replace?
    requires JustCreated(w.log, c) && w.procs.Keys == {0, 1} && w.procs[1].ask == x.ask
    requires Stands(cfg, w, 1, c, AppendUpdate(Checksum(cfg, x.bytes), 0, 0, 1, LastSeq(Stream(w.log, DocKey(c)))))
    requires n == Next(cfg, w, Steps(1, Works, 0))
    ensures JustReplaced(n.log, c, x.ask) && n.begun == w.begun && n.procs.Keys == {0, 1} && n.procs[0] == w.procs[0]
  {
    var e := UpdateEvent(c, x.ask, w.procs[1].pc);
    var seqNo := w.procs[1].pc.seqNo;
    RememberedIsLogged(cfg, w.log, c);
    assert !Logged(w.log, c);
    assert n.log == Publish(w.log, e, Exactly(seqNo));
    assert Stream(n.log, DocKey(c)) == Stream(w.log, DocKey(c)) + [Entry(w.log.head + 1, e)];
  }

  lemma AnswersFromLog(cfg: Config, x: Case, c: Command, w1: World, w4: World, n: World)
    requires x.u in cfg.commands && c == cfg.commands[x.u] && CommandOf(cfg, x.u, c) && x.u in w1.begun
    requires JustReplaced(w1.log, c, x.ask) && w1.procs.Keys == {0, 1}
    requires w4 == Next(cfg, Next(cfg, Next(cfg, w1, Crashes(1)), Expires(x.u)), Delivers(2, x.u, x.ask, false))
    requires n == Next(cfg, Next(cfg, w4, Steps(2, Works, 0)), Steps(2, Works, 0))
    ensures n.log == w1.log && AnsweredExpired(n, 2, x.u, 2, false)
  {
    var w5 := Next(cfg, w4, Steps(2, Works, 0));
    assert w4.log == w1.log && w4.procs[2] == Proc(x.u, x.ask, false, LoadRecord) && Record(c) !in w4.records;
    assert w5.log == w1.log && w5.procs[2] == Proc(x.u, x.ask, false, CheckHistory);
    var xs := Stream(w1.log, DocKey(c));
    assert xs[1..][0] == xs[1];
    assert FindBlob(xs, x.u) == Some(xs[1]);
  }

  lemma ExpiredIsSerial(cfg: Config, y: Case, x: Case, c: Command)
    requires FreshIds(cfg) && Replaces(cfg, y, x) && c == cfg.commands[x.u]
    ensures OneInFlight(cfg, ExpiredRedelivery(y, x))
  {
    var a0 := UpToTail(y, x);
    var a1 := a0 + [Steps(1, Works, 0)];
    var a2 := a1 + [Crashes(1)];
    var a3 := a2 + [Expires(x.u)];
    var a4 := a3 + [Delivers(2, x.u, x.ask, false)];
    TailIsSerial(cfg, y, x);
    PushQuiet(cfg, a0, Steps(1, Works, 0));
    PushQuiet(cfg, a1, Crashes(1));
    PushQuiet(cfg, a2, Expires(x.u));
    ReachesTail(cfg, y, x, c, Run(cfg, a0));
    Push(cfg, a0, Steps(1, Works, 0));
    Push(cfg, a1, Crashes(1));
    Push(cfg, a2, Expires(x.u));
    OnlyTheOther(cfg, y, x, Run(cfg, a0), Run(cfg, a3));
    PushDelivery(cfg, a3, 2, x);
    PushQuiet(cfg, a4, Steps(2, Works, 0));
    PushQuiet(cfg, a4 + [Steps(2, Works, 0)], Steps(2, Works, 0));
  }

  lemma OnlyTheOther(cfg: Config, y: Case, x: Case, w: World, n: World)
    requires w.procs.Keys == {0, 1} && w.procs[0].upload == y.u && y.u != x.u
    requires n == Next(cfg, Next(cfg, Next(cfg, w, Steps(1, Works, 0)), Crashes(1)), Expires(x.u))
    ensures NoneFor(n, x.u)
  {
  }

  lemma TailIsSerial(cfg: Config, y: Case, x: Case)
    requires FreshIds(cfg) && Replaces(cfg, y, x)
    ensures OneInFlight(cfg, UpToTail(y, x))
  {
    AppendIsSerial(cfg, y);
    CallsSerial(cfg, UpToAppend(y), 0, 1);
    ReachesCreated(cfg, y, cfg.commands[y.u], Run(cfg, Created(y)));
    OpeningIsSerial(cfg, Created(y), x, 1);
    CallsSerial(cfg, Created(y) + Opening(x, 1), 1, 8);
    CallsSerial(cfg, Created(y) + Opening(x, 1) + Calls(1, 0, 8), 1, 2);
  }
}
