/** The projection loop: batches folded against a cache, guarded upserts, and a checkpoint,
    all in one transaction. */
module Projection {
  import opened Wrappers
  import opened Domain
  import opened Fold
  import opened Subject

  datatype Decoded = Event(event: DocumentEvent) | Unknown(raw: Json) | Malformed

  datatype Message = Message(sequence: nat, subject: string, payload: Decoded)

  datatype FailureKind = FoldFailure(fold: FoldError) | UnknownEvent | NotJson

  datatype FailureRow = FailureRow(subject: string, payload: Decoded, error: FailureKind)

  datatype Outcome = Upsert(state: DocumentState) | Failure(kind: FailureKind)

  type Table = map<Key, DocumentState>

  type Failures = map<nat, FailureRow>

  function ProjectEvent(prior: Option<DocumentState>, payload: Decoded, seqNo: nat): Outcome {
    match payload
    case Event(e) =>
      (match Apply(prior, e, seqNo)
       case Ok(s) => Upsert(s)
       case Err(x) => Failure(FoldFailure(x)))
    case Unknown(_) => Failure(UnknownEvent)
    case Malformed => Failure(NotJson)
  }

  function Get(t: Table, k: Key): Option<DocumentState> {
    if k in t then Some(t[k]) else None
  }

  // ------------------------------------------------------------------ reference: one event at a time

  /** The simple form: fold one message into the table, skipping what does not fold. */
  function ReplayStep(t: Table, m: Message): Table {
    match DocumentKeyFromSubject(m.subject)
    case None => t
    case Some(k) =>
      match ProjectEvent(Get(t, k), m.payload, m.sequence)
      case Upsert(s) => t[k := s]
      case Failure(_) => t
  }

  function Replay(log: seq<Message>): Table {
    if log == [] then map[] else ReplayStep(Replay(log[..|log| - 1]), log[|log| - 1])
  }

  function PriorOf(t: Table, m: Message): Option<DocumentState> {
    match DocumentKeyFromSubject(m.subject)
    case None => None
    case Some(k) => Get(t, k)
  }

  function ReplayFailures(log: seq<Message>): Failures {
    if log == [] then map[]
    else
      var m := log[|log| - 1];
      var rest := ReplayFailures(log[..|log| - 1]);
      match ProjectEvent(PriorOf(Replay(log[..|log| - 1]), m), m.payload, m.sequence)
      case Upsert(_) => rest
      case Failure(kind) => rest[m.sequence := FailureRow(m.subject, m.payload, kind)]
  }

  // ------------------------------------------------------------------ the batch algorithm on values

  /** What the loop sees as a document's prior state: the cache first, then the table. */
  function View(t: Table, cache: Table, k: Key): Option<DocumentState> {
    if k in cache then Some(cache[k]) else Get(t, k)
  }

  function PriorIn(t: Table, cache: Table, m: Message): Option<DocumentState> {
    match DocumentKeyFromSubject(m.subject)
    case None => None
    case Some(k) => View(t, cache, k)
  }

  function CacheStep(t: Table, cache: Table, m: Message): Table {
    match ProjectEvent(PriorIn(t, cache, m), m.payload, m.sequence)
    case Upsert(s) => cache[Key(s.tenantId, s.documentId) := s]
    case Failure(_) => cache
  }

  function CacheFold(t: Table, batch: seq<Message>): Table {
    if batch == [] then map[] else CacheStep(t, CacheFold(t, batch[..|batch| - 1]), batch[|batch| - 1])
  }

  /** `INSERT ... ON CONFLICT (name, stream_seq) DO NOTHING`. */
  function RecordFailure(f: Failures, n: nat, row: FailureRow): Failures {
    if n in f then f else f[n := row]
  }

  function FailStep(t: Table, cache: Table, f: Failures, m: Message): Failures {
    match ProjectEvent(PriorIn(t, cache, m), m.payload, m.sequence)
    case Upsert(_) => f
    case Failure(kind) => RecordFailure(f, m.sequence, FailureRow(m.subject, m.payload, kind))
  }

  function FailFold(t: Table, f: Failures, batch: seq<Message>): Failures {
    if batch == [] then f
    else
      var n := |batch| - 1;
      FailStep(t, CacheFold(t, batch[..n]), FailFold(t, f, batch[..n]), batch[n])
  }

  /** One guarded upsert. A conflicting row keeps its key columns and its `created_at`. */
  function UpsertRow(row: Option<DocumentState>, s: DocumentState): DocumentState {
    match row
    case None => s
    case Some(r) =>
      if r.streamSeq < s.streamSeq
      then s.(tenantId := r.tenantId, documentId := r.documentId, createdAt := r.createdAt)
      else r
  }

  function UpsertAll(t: Table, cache: Table): Table {
    map k | k in t.Keys + cache.Keys :: if k in cache then UpsertRow(Get(t, k), cache[k]) else t[k]
  }

  function LastSequence(batch: seq<Message>): nat {
    if batch == [] then 0 else batch[|batch| - 1].sequence
  }

  // ------------------------------------------------------------------ the loop itself

  /** The upserts of one transaction, in whatever order the cache yields them. */
  method WriteRows(t: Table, folded: Table) returns (rows: Table)
    ensures rows == UpsertAll(t, folded)
  {
    rows := t;
    var todo := folded.Keys;
    while todo != {}
      invariant todo <= folded.Keys
      invariant rows.Keys == t.Keys + (folded.Keys - todo)
      invariant forall k :: k in rows ==>
                  rows[k] == if k in folded && k !in todo then UpsertRow(Get(t, k), folded[k]) else t[k]
      decreases todo
    {
      var k :| k in todo;
      rows := rows[k := UpsertRow(Get(rows, k), folded[k])];
      todo := todo - {k};
    }
  }

  /** The projection's three tables. */
  class ProjectionLoop {
    var table: Table
    var checkpoint: nat
    var failures: Failures

    constructor ()
      ensures table == map[] && checkpoint == 0 && failures == map[]
    {
      table, checkpoint, failures := map[], 0, map[];
    }

    /** One transaction. `commits` is false when the process dies, or a statement fails, before commit. */
    method ApplyBatch(batch: seq<Message>, commits: bool)
      modifies this
      ensures !commits ==> table == old(table) && checkpoint == old(checkpoint) && failures == old(failures)
      ensures commits ==>
                && table == UpsertAll(old(table), CacheFold(old(table), batch))
                && checkpoint == LastSequence(batch)
                && failures == FailFold(old(table), old(failures), batch)
    {
      var folded: Table := map[];
      var lastSeq := 0;
      var failed := failures;
      for i := 0 to |batch|
        invariant table == old(table) && checkpoint == old(checkpoint) && failures == old(failures)
        invariant folded == CacheFold(table, batch[..i])
        invariant failed == FailFold(table, failures, batch[..i])
        invariant lastSeq == LastSequence(batch[..i])
      {
        var m := batch[i];
        assert batch[..i + 1][..i] == batch[..i] && batch[..i + 1][i] == m;
        lastSeq := m.sequence;
        var key := DocumentKeyFromSubject(m.subject);
        var prior: Option<DocumentState> := None;
        if key.Some? {
          if key.value in folded {
            prior := Some(folded[key.value]);
          } else {
            prior := Get(table, key.value);
          }
        }
        match ProjectEvent(prior, m.payload, m.sequence) {
          case Upsert(s) => folded := folded[Key(s.tenantId, s.documentId) := s];
          case Failure(kind) => failed := RecordFailure(failed, m.sequence, FailureRow(m.subject, m.payload, kind));
        }
      }
      assert batch[..|batch|] == batch;
      if commits {
        var rows := WriteRows(table, folded);
        table, checkpoint, failures := rows, lastSeq, failed;
      }
    }

    /** Rebuild: truncate the table, drop the checkpoint and the recorded failures. */
    method Reset()
      modifies this
      ensures table == map[] && checkpoint == 0 && failures == map[]
    {
      table, checkpoint, failures := map[], 0, map[];
    }
  }

  // ------------------------------------------------------------------ messages of one document

  /** An event's subject is built from the event's own ids. */
  predicate Addressed(m: Message) {
    m.payload.Event? ==>
      DocumentKeyFromSubject(m.subject) == Some(Key(m.payload.event.tenantId, m.payload.event.documentId))
  }

  lemma PublishedIsAddressed(m: Message, crc: nat)
    requires m.payload.Event?
    requires DotFree(m.payload.event.tenantId) && DotFree(m.payload.event.documentId)
    requires m.subject == EventSubject(Key(m.payload.event.tenantId, m.payload.event.documentId), crc)
    ensures Addressed(m)
  {
    KeyRoundTrip(Key(m.payload.event.tenantId, m.payload.event.documentId), crc);
  }

  predicate WellFormedLog(log: seq<Message>) {
    && (forall i :: 0 <= i < |log| ==> Addressed(log[i]) && log[i].sequence > 0)
    && forall i, j :: 0 <= i < j < |log| ==> InOrder(log, i, j)
  }

  predicate InOrder(log: seq<Message>, i: nat, j: nat)
    requires i < j < |log|
  {
    log[i].sequence < log[j].sequence
  }

  lemma SliceWellFormed(log: seq<Message>, lo: nat, hi: nat)
    requires WellFormedLog(log) && lo <= hi <= |log|
    ensures WellFormedLog(log[lo..hi])
  {
    var part := log[lo..hi];
    forall i, j | 0 <= i < j < |part|
      ensures InOrder(part, i, j)
    {
      assert InOrder(log, lo + i, lo + j);
    }
  }

  predicate For(m: Message, k: Key) {
    m.payload.Event? && m.payload.event.tenantId == k.tenant && m.payload.event.documentId == k.doc
  }

  function Entries(log: seq<Message>, k: Key): (xs: seq<Entry>)
    ensures About(k.tenant, k.doc, xs)
    ensures forall x <- xs :: exists i :: 0 <= i < |log| && log[i].sequence == x.seqNo
  {
    if log == [] then []
    else
      var n := |log| - 1;
      var m := log[n];
      Entries(log[..n], k) + (if For(m, k) then [Entry(m.sequence, m.payload.event)] else [])
  }

  lemma {:induction false} EntriesConcat(a: seq<Message>, b: seq<Message>, k: Key)
    ensures Entries(a + b, k) == Entries(a, k) + Entries(b, k)
  {
    if b == [] {
      assert a + b == a;
    } else {
      var n := |b| - 1;
      assert (a + b)[..|a + b| - 1] == a + b[..n];
      EntriesConcat(a, b[..n], k);
    }
  }

  predicate Keyed(t: Table) {
    forall k :: k in t ==> t[k].tenantId == k.tenant && t[k].documentId == k.doc
  }

  lemma AddressedAll(log: seq<Message>)
    requires WellFormedLog(log)
    ensures forall m <- log :: Addressed(m)
  {
  }

  /** Row by row, the simple form folds exactly that document's events. */
  lemma {:induction false} ReplayByKey(log: seq<Message>, k: Key)
    requires forall m <- log :: Addressed(m)
    ensures Get(Replay(log), k) == FoldSkip(None, Entries(log, k))
    ensures Keyed(Replay(log))
  {
    if log != [] {
      var n := |log| - 1;
      ReplayByKey(log[..n], k);
      assert log[n] in log;
      ReplayStepByKey(Replay(log[..n]), log[n], k);
      LastEntry(None, log, k);
    }
  }

  lemma ReplayStepByKey(t: Table, m: Message, k: Key)
    requires Keyed(t) && Addressed(m)
    ensures Keyed(ReplayStep(t, m))
    ensures Get(ReplayStep(t, m), k) == if For(m, k)
                                        then ApplySkip(Get(t, k), Entry(m.sequence, m.payload.event))
                                        else Get(t, k)
  {
    if m.payload.Event? {
      var own := Key(m.payload.event.tenantId, m.payload.event.documentId);
      if own in t {
        ApplyIsOverlay(t[own], Entry(m.sequence, m.payload.event));
      }
    }
  }

  lemma LastEntry(prior: Option<DocumentState>, log: seq<Message>, k: Key)
    requires log != []
    ensures var n := |log| - 1; var m := log[n];
            FoldSkip(prior, Entries(log, k)) ==
            if For(m, k)
            then ApplySkip(FoldSkip(prior, Entries(log[..n], k)), Entry(m.sequence, m.payload.event))
            else FoldSkip(prior, Entries(log[..n], k))
  {
    var n := |log| - 1;
    var xs := Entries(log, k);
    if For(log[n], k) {
      assert xs[..|xs| - 1] == Entries(log[..n], k);
    } else {
      assert xs == Entries(log[..n], k);
    }
  }

  lemma CacheStepByKey(t: Table, cache: Table, m: Message, k: Key)
    requires Keyed(t) && Keyed(cache) && Addressed(m)
    ensures var next := CacheStep(t, cache, m);
            && Keyed(next)
            && View(t, next, k) == if For(m, k)
                                   then ApplySkip(View(t, cache, k), Entry(m.sequence, m.payload.event))
                                   else View(t, cache, k)
  {
    if m.payload.Event? {
      var own := Key(m.payload.event.tenantId, m.payload.event.documentId);
      if View(t, cache, own).Some? {
        ApplyIsOverlay(View(t, cache, own).value, Entry(m.sequence, m.payload.event));
      }
    }
  }

  /** Row by row, the cached form folds the same events over the stored row. */
  lemma {:induction false} CacheByKey(t: Table, batch: seq<Message>, k: Key)
    requires Keyed(t) && forall m <- batch :: Addressed(m)
    ensures Keyed(CacheFold(t, batch))
    ensures View(t, CacheFold(t, batch), k) == FoldSkip(Get(t, k), Entries(batch, k))
  {
    if batch != [] {
      var n := |batch| - 1;
      CacheByKey(t, batch[..n], k);
      assert batch[n] in batch;
      CacheStepByKey(t, CacheFold(t, batch[..n]), batch[n], k);
      LastEntry(Get(t, k), batch, k);
    }
  }

  // ------------------------------------------------------------------ sequences carried by rows

  predicate Rising(xs: seq<Entry>) {
    forall i, j :: 0 <= i < j < |xs| ==> xs[i].seqNo < xs[j].seqNo
  }

  lemma {:induction false} EntriesRise(log: seq<Message>, k: Key)
    requires WellFormedLog(log)
    ensures Rising(Entries(log, k))
  {
    if log != [] {
      var n := |log| - 1;
      SliceWellFormed(log, 0, n);
      assert log[0..n] == log[..n];
      EntriesRise(log[..n], k);
      forall x <- Entries(log[..n], k)
        ensures x.seqNo < log[n].sequence
      {
        var i :| 0 <= i < n && log[..n][i].sequence == x.seqNo;
        assert InOrder(log, i, n);
      }
    }
  }

  lemma PrefixRises(log: seq<Message>, h: nat, k: Key)
    requires WellFormedLog(log) && h <= |log|
    ensures Rising(Entries(log[..h], k))
  {
    SliceWellFormed(log, 0, h);
    assert log[0..h] == log[..h];
    EntriesRise(log[..h], k);
  }

  /** A create by a system actor never folds; every other event folds on an existing row. */
  predicate Effective(x: Entry) {
    !(x.event.payload.DocumentCreated? && x.event.actor.System?)
  }

  lemma {:induction false} RowCarriesLatest(tenant: Id, doc: Id, xs: seq<Entry>)
    requires About(tenant, doc, xs) && Rising(xs) && FoldSkip(None, xs).Some?
    ensures forall x <- xs :: Effective(x) ==> x.seqNo <= FoldSkip(None, xs).value.streamSeq
    ensures exists x <- xs :: x.seqNo == FoldSkip(None, xs).value.streamSeq
  {
    var n := |xs| - 1;
    var init := xs[..n];
    assert xs == init + [xs[n]];
    FoldFromNothing(tenant, doc, init);
    assert xs[n] in xs;
    if FoldSkip(None, init).Some? {
      RowCarriesLatest(tenant, doc, init);
      ApplyIsOverlay(FoldSkip(None, init).value, xs[n]);
      if !Effective(xs[n]) {
        assert Write(FoldSkip(None, init).value, NOTHING) == FoldSkip(None, init).value;
      }
    }
  }

  lemma {:induction false} FoldOverRow(r: DocumentState, ys: seq<Entry>)
    requires About(r.tenantId, r.documentId, ys)
    ensures var v := FoldSkip(Some(r), ys);
            && v.Some? && v.value.createdAt == r.createdAt
            && v.value.tenantId == r.tenantId && v.value.documentId == r.documentId
            && (v.value == r || exists y <- ys :: Effective(y) && y.seqNo == v.value.streamSeq)
  {
    if ys != [] {
      var n := |ys| - 1;
      FoldOverRow(r, ys[..n]);
      var p := FoldSkip(Some(r), ys[..n]).value;
      ApplyIsOverlay(p, ys[n]);
      assert ys[n] in ys;
      if !Effective(ys[n]) {
        assert Write(p, NOTHING) == p;
      }
    }
  }

  /** Re-folding events the row already holds never yields a newer sequence. */
  lemma RefoldInside(k: Key, a: seq<Entry>, b: seq<Entry>, c: seq<Entry>)
    requires About(k.tenant, k.doc, a + b + c) && Rising(a + b + c)
    ensures var r := FoldSkip(None, a + b + c);
            var v := FoldSkip(r, b);
            && (r.None? ==> v.None?)
            && (r.Some? ==> v.Some? && (v == r || v.value.streamSeq <= r.value.streamSeq))
  {
    var xs := a + b + c;
    var r := FoldSkip(None, xs);
    assert forall y <- b :: y in xs;
    FoldFromNothing(k.tenant, k.doc, xs);
    if r.Some? {
      RowCarriesLatest(k.tenant, k.doc, xs);
      FoldOverRow(r.value, b);
    } else {
      FoldFromNothing(k.tenant, k.doc, b);
    }
  }

  /** Folding a batch that starts inside the row's history and ends beyond it brings the row up to date. */
  lemma RefoldAcross(k: Key, a: seq<Entry>, b: seq<Entry>, c: seq<Entry>)
    requires About(k.tenant, k.doc, a) && About(k.tenant, k.doc, b) && About(k.tenant, k.doc, c)
    ensures FoldSkip(FoldSkip(None, a + b), b + c) == FoldSkip(None, a + b + c)
  {
    RefoldSuffix(k.tenant, k.doc, a, b);
    FoldSkipConcat(FoldSkip(None, a + b), b, c);
    FoldSkipConcat(None, a + b, c);
  }

  /** A row and the row after more events: the same, or the later one carries a newer sequence. */
  lemma LaterRow(k: Key, xs: seq<Entry>, c: seq<Entry>)
    requires About(k.tenant, k.doc, xs) && About(k.tenant, k.doc, c)
    requires Rising(xs) && forall x <- xs, y <- c :: x.seqNo < y.seqNo
    requires FoldSkip(None, xs).Some?
    ensures var r := FoldSkip(None, xs).value;
            var w := FoldSkip(None, xs + c);
            && w.Some? && w.value.createdAt == r.createdAt
            && w.value.tenantId == r.tenantId && w.value.documentId == r.documentId
            && (w.value == r || w.value.streamSeq > r.streamSeq)
  {
    FoldSkipConcat(None, xs, c);
    FoldFromNothing(k.tenant, k.doc, xs);
    FoldOverRow(FoldSkip(None, xs).value, c);
    RowCarriesLatest(k.tenant, k.doc, xs);
  }

  function Max(a: nat, b: nat): nat {
    if a < b then b else a
  }

  lemma Slices(log: seq<Message>, i: nat, j: nat, k: Key)
    requires i <= j <= |log|
    ensures Entries(log[..j], k) == Entries(log[..i], k) + Entries(log[i..j], k)
  {
    assert log[..j] == log[..i] + log[i..j];
    EntriesConcat(log[..i], log[i..j], k);
  }

  lemma MiddleSlices(log: seq<Message>, i: nat, j: nat, h: nat, k: Key)
    requires i <= j <= h <= |log|
    ensures Entries(log[i..h], k) == Entries(log[i..j], k) + Entries(log[j..h], k)
  {
    assert log[i..h] == log[i..j] + log[j..h];
    EntriesConcat(log[i..j], log[j..h], k);
  }

  /** What the loop sees of a document after folding `log[from..j]` over a table that replays `high`
      messages, when `j` is at or beyond `high`: the row of the longer prefix. */
  lemma ViewAcross(log: seq<Message>, from: nat, high: nat, j: nat, k: Key)
    requires WellFormedLog(log) && from <= high <= j <= |log|
    ensures var t := Replay(log[..high]);
            View(t, CacheFold(t, log[from..j]), k) == Get(Replay(log[..j]), k)
  {
    var t := Replay(log[..high]);
    AddressedAll(log);
    ReplayByKey(log[..high], k);
    ReplayByKey(log[..j], k);
    CacheByKey(t, log[from..j], k);
    Slices(log, from, high, k);
    Slices(log, high, j, k);
    MiddleSlices(log, from, high, j, k);
    RefoldAcross(k, Entries(log[..from], k), Entries(log[from..high], k), Entries(log[high..j], k));
  }

  /** The same when `j` is inside the replayed prefix: no row appears, and none gets a newer sequence. */
  lemma ViewInside(log: seq<Message>, from: nat, j: nat, high: nat, k: Key)
    requires WellFormedLog(log) && from <= j <= high <= |log|
    ensures var t := Replay(log[..high]);
            var v := View(t, CacheFold(t, log[from..j]), k);
            if k in t then v.Some? && (v.value == t[k] || v.value.streamSeq <= t[k].streamSeq) else v.None?
  {
    var t := Replay(log[..high]);
    AddressedAll(log);
    ReplayByKey(log[..high], k);
    CacheByKey(t, log[from..j], k);
    Slices(log, from, j, k);
    Slices(log, j, high, k);
    PrefixRises(log, high, k);
    RefoldInside(k, Entries(log[..from], k), Entries(log[from..j], k), Entries(log[j..high], k));
  }

  lemma EntriesApart(log: seq<Message>, high: nat, j: nat, k: Key)
    requires WellFormedLog(log) && high <= j <= |log|
    ensures forall x <- Entries(log[..high], k), y <- Entries(log[high..j], k) :: x.seqNo < y.seqNo
  {
    var before, after := log[..high], log[high..j];
    forall x <- Entries(before, k), y <- Entries(after, k)
      ensures x.seqNo < y.seqNo
    {
      var p :| 0 <= p < |before| && before[p].sequence == x.seqNo;
      var q :| 0 <= q < |after| && after[q].sequence == y.seqNo;
      assert before[p] == log[p] && after[q] == log[high + q];
      assert InOrder(log, p, high + q);
    }
  }

  lemma RowGrows(log: seq<Message>, high: nat, j: nat, k: Key)
    requires WellFormedLog(log) && high <= j <= |log| && k in Replay(log[..high])
    ensures var r, w := Replay(log[..high])[k], Get(Replay(log[..j]), k);
            && w.Some? && w.value.createdAt == r.createdAt
            && w.value.tenantId == r.tenantId && w.value.documentId == r.documentId
            && (w.value == r || w.value.streamSeq > r.streamSeq)
  {
    AddressedAll(log);
    ReplayByKey(log[..high], k);
    ReplayByKey(log[..j], k);
    Slices(log, high, j, k);
    PrefixRises(log, high, k);
    var xs, c := Entries(log[..high], k), Entries(log[high..j], k);
    EntriesApart(log, high, j, k);
    LaterRow(k, xs, c);
  }

  lemma UpsertByKey(t: Table, cache: Table, k: Key)
    ensures Get(UpsertAll(t, cache), k) ==
            if k in cache then Some(UpsertRow(Get(t, k), cache[k])) else Get(t, k)
  {
  }

  /** A batch over a table that already replays `high` messages leaves, for each key, the row that
      replays `max(high, upto)` messages. */
  lemma BatchRow(log: seq<Message>, from: nat, upto: nat, high: nat, k: Key)
    requires WellFormedLog(log) && from <= high <= |log| && from <= upto <= |log|
    ensures var t := Replay(log[..high]);
            Get(UpsertAll(t, CacheFold(t, log[from..upto])), k) == Get(Replay(log[..Max(high, upto)]), k)
  {
    var t := Replay(log[..high]);
    UpsertByKey(t, CacheFold(t, log[from..upto]), k);
    if upto <= high {
      ViewInside(log, from, upto, high, k);
    } else {
      ViewAcross(log, from, high, upto, k);
      if k in t {
        RowGrows(log, high, upto, k);
      }
    }
  }

  /** The batched, cached, guarded table is the one-event-at-a-time table. */
  lemma BatchIsReplay(log: seq<Message>, from: nat, upto: nat, high: nat)
    requires WellFormedLog(log) && from <= high <= |log| && from <= upto <= |log|
    ensures var t := Replay(log[..high]);
            UpsertAll(t, CacheFold(t, log[from..upto])) == Replay(log[..Max(high, upto)])
  {
    var t := Replay(log[..high]);
    var got := UpsertAll(t, CacheFold(t, log[from..upto]));
    var want := Replay(log[..Max(high, upto)]);
    forall k: Key
      ensures Get(got, k) == Get(want, k)
    {
      BatchRow(log, from, upto, high, k);
    }
    SameRows(got, want);
  }

  lemma SameRows(a: Table, b: Table)
    requires forall k :: Get(a, k) == Get(b, k)
    ensures a == b
  {
    assert forall k :: k in a <==> Get(a, k).Some?;
    assert forall k :: k in b <==> Get(b, k).Some?;
    assert forall k :: k in a ==> Some(a[k]) == Get(a, k) == Get(b, k) == Some(b[k]);
  }

  // ------------------------------------------------------------------ recorded failures

  /** The outcome recorded for message `i` by the one-at-a-time form. */
  function OutcomeAt(log: seq<Message>, i: nat): Outcome
    requires i < |log|
  {
    ProjectEvent(PriorOf(Replay(log[..i]), log[i]), log[i].payload, log[i].sequence)
  }

  lemma {:induction false} FailuresExact(log: seq<Message>, h: nat, i: nat)
    requires WellFormedLog(log) && h <= |log| && i < |log|
    ensures var f := ReplayFailures(log[..h]); var n := log[i].sequence;
            (n in f <==> i < h && OutcomeAt(log, i).Failure?)
            && (n in f ==> f[n] == FailureRow(log[i].subject, log[i].payload, OutcomeAt(log, i).kind))
  {
    if h > 0 {
      FailuresExact(log, h - 1, i);
      FailuresSnoc(log, h - 1);
      assert i < h - 1 ==> InOrder(log, i, h - 1);
      assert i > h - 1 ==> InOrder(log, h - 1, i);
    }
  }

  /** During a batch, a message beyond the replayed prefix meets the prior state the one-at-a-time form
      meets; a message inside it that folded once folds again. */
  lemma OutcomeInBatch(log: seq<Message>, from: nat, i: nat, high: nat)
    requires WellFormedLog(log) && from <= high <= |log| && from <= i < |log|
    ensures var t := Replay(log[..high]);
            var o := ProjectEvent(PriorIn(t, CacheFold(t, log[from..i]), log[i]), log[i].payload, log[i].sequence);
            && (i >= high ==> o == OutcomeAt(log, i))
            && (i < high && OutcomeAt(log, i).Upsert? ==> o.Upsert?)
  {
    var m := log[i];
    if m.payload.Event? {
      assert Addressed(m);
      var k := Key(m.payload.event.tenantId, m.payload.event.documentId);
      if i < high {
        ViewInside(log, from, i, high, k);
        FoldsAgain(log, from, i, high, k);
      } else {
        ViewAcross(log, from, high, i, k);
      }
    }
  }

  lemma FoldsAgain(log: seq<Message>, from: nat, i: nat, high: nat, k: Key)
    requires WellFormedLog(log) && from <= i < high <= |log| && For(log[i], k)
    ensures k in Replay(log[..i]) ==> k in Replay(log[..high])
    ensures Keyed(Replay(log[..high]))
    ensures var t := Replay(log[..high]); Keyed(CacheFold(t, log[from..i]))
  {
    AddressedAll(log);
    ReplayByKey(log[..high], k);
    CacheByKey(Replay(log[..high]), log[from..i], k);
    if k in Replay(log[..i]) {
      RowGrows(log, i, high, k);
    }
  }

  lemma FailFoldSlice(t: Table, f: Failures, log: seq<Message>, from: nat, i: nat)
    requires from <= i < |log|
    ensures FailFold(t, f, log[from..i + 1])
            == FailStep(t, CacheFold(t, log[from..i]), FailFold(t, f, log[from..i]), log[i])
  {
    var batch := log[from..i + 1];
    assert batch[..|batch| - 1] == log[from..i];
  }

  lemma FailuresSnoc(log: seq<Message>, i: nat)
    requires i < |log|
    ensures ReplayFailures(log[..i + 1]) ==
            match OutcomeAt(log, i)
            case Upsert(_) => ReplayFailures(log[..i])
            case Failure(kind) =>
              ReplayFailures(log[..i])[log[i].sequence := FailureRow(log[i].subject, log[i].payload, kind)]
  {
    assert log[..i + 1][..i] == log[..i];
  }

  lemma FailStepIsReplay(log: seq<Message>, from: nat, i: nat, high: nat)
    requires WellFormedLog(log) && from <= high <= |log| && from <= i < |log|
    ensures var t := Replay(log[..high]);
            FailStep(t, CacheFold(t, log[from..i]), ReplayFailures(log[..Max(high, i)]), log[i])
            == ReplayFailures(log[..Max(high, i + 1)])
  {
    OutcomeInBatch(log, from, i, high);
    FailuresExact(log, Max(high, i), i);
    if i >= high {
      FailuresSnoc(log, i);
    }
  }

  /** The failure table after a batch is that of the longer prefix: nothing twice, nothing missing. */
  lemma {:induction false} BatchFailures(log: seq<Message>, from: nat, upto: nat, high: nat)
    requires WellFormedLog(log) && from <= high <= |log| && from <= upto <= |log|
    ensures FailFold(Replay(log[..high]), ReplayFailures(log[..high]), log[from..upto])
            == ReplayFailures(log[..Max(high, upto)])
    decreases upto
  {
    if from < upto {
      var i := upto - 1;
      var t, f := Replay(log[..high]), ReplayFailures(log[..high]);
      BatchFailures(log, from, i, high);
      FailFoldSlice(t, f, log, from, i);
      calc {
        FailFold(t, f, log[from..upto]);
        FailStep(t, CacheFold(t, log[from..i]), ReplayFailures(log[..Max(high, i)]), log[i]);
        { FailStepIsReplay(log, from, i, high); }
        ReplayFailures(log[..Max(high, upto)]);
      }
    }
  }

  // ------------------------------------------------------------------ whole runs

  datatype State = State(table: Table, checkpoint: nat, failures: Failures)

  /** How many messages lie at or before the checkpoint. */
  function Position(log: seq<Message>, checkpoint: nat): (p: nat)
    ensures p <= |log|
  {
    if log == [] || log[0].sequence > checkpoint then 0 else 1 + Position(log[1..], checkpoint)
  }

  /** `Batch` reads up to `size` messages and commits or dies; `Rewind` moves the checkpoint back. */
  datatype Action = Batch(size: nat, commits: bool) | Rebuild | Rewind(back: nat)

  function Min(a: nat, b: nat): nat {
    if a < b then a else b
  }

  /** The state a committed transaction leaves, as `ProjectionLoop.ApplyBatch` states it. */
  function Commit(s: State, batch: seq<Message>): State {
    State(UpsertAll(s.table, CacheFold(s.table, batch)), LastSequence(batch), FailFold(s.table, s.failures, batch))
  }

  function Next(log: seq<Message>, s: State, a: Action): State {
    match a
    case Batch(size, commits) =>
      // An ordered consumer starts right after the checkpoint; an empty read starts no transaction.
      var p := Position(log, s.checkpoint);
      var n := Min(size, |log| - p);
      if n == 0 || !commits then s else Commit(s, log[p..p + n])
    case Rebuild => State(map[], 0, map[])
    case Rewind(back) => s.(checkpoint := Min(back, s.checkpoint))
  }

  const START := State(map[], 0, map[])

  function Run(log: seq<Message>, acts: seq<Action>): State {
    if acts == [] then START else Next(log, Run(log, acts[..|acts| - 1]), acts[|acts| - 1])
  }

  /** How many messages have been projected since the last rebuild. */
  function HighWater(log: seq<Message>, acts: seq<Action>): nat {
    if acts == [] then 0
    else
      var init := acts[..|acts| - 1];
      if acts[|acts| - 1].Rebuild? then 0
      else Max(HighWater(log, init), Position(log, Run(log, acts).checkpoint))
  }

  lemma {:induction false} PositionAt(log: seq<Message>, p: nat)
    requires WellFormedLog(log) && p <= |log|
    ensures Position(log, LastSequence(log[..p])) == p
  {
    if p > 1 {
      assert InOrder(log, 0, p - 1);
      assert LastSequence(log[1..][..p - 1]) == log[p - 1].sequence;
      SliceWellFormed(log, 1, |log|);
      assert log[1..|log|] == log[1..];
      PositionAt(log[1..], p - 1);
    } else if p == 1 && |log| > 1 {
      assert InOrder(log, 0, 1);
      assert log[1..][0] == log[1];
    }
  }

  lemma {:induction false} PositionMonotone(log: seq<Message>, c: nat, d: nat)
    requires c <= d
    ensures Position(log, c) <= Position(log, d)
  {
    if log != [] && log[0].sequence <= c {
      PositionMonotone(log[1..], c, d);
    }
  }

  predicate Replays(log: seq<Message>, s: State, high: nat) {
    && Position(log, s.checkpoint) <= high <= |log|
    && s.table == Replay(log[..high])
    && s.failures == ReplayFailures(log[..high])
  }

  lemma PositionAfterBatch(log: seq<Message>, p: nat, q: nat)
    requires WellFormedLog(log) && p < q <= |log|
    ensures Position(log, LastSequence(log[p..q])) == q
  {
    assert log[p..q][q - p - 1] == log[q - 1] == log[..q][q - 1];
    PositionAt(log, q);
  }

  /** The two tables of a committed batch; `table` and `failed` name the longer replay. */
  lemma CommitTables(log: seq<Message>, s: State, high: nat, p: nat, q: nat, n: State, table: Table, failed: Failures)
    requires WellFormedLog(log) && p <= high <= |log| && p < q <= |log|
    requires s.table == Replay(log[..high]) && s.failures == ReplayFailures(log[..high])
    requires n == Commit(s, log[p..q])
    requires table == Replay(log[..Max(high, q)]) && failed == ReplayFailures(log[..Max(high, q)])
    ensures n.table == table && n.failures == failed
  {
    BatchIsReplay(log, p, q, high);
    BatchFailures(log, p, q, high);
  }

  lemma CommitReplays(log: seq<Message>, s: State, high: nat, p: nat, q: nat, n: State)
    requires WellFormedLog(log) && Replays(log, s, high) && p == Position(log, s.checkpoint) < q <= |log|
    requires n == Commit(s, log[p..q])
    ensures Replays(log, n, Max(high, q)) && Position(log, n.checkpoint) == q
  {
    PositionAfterBatch(log, p, q);
    CommitTables(log, s, high, p, q, n, Replay(log[..Max(high, q)]), ReplayFailures(log[..Max(high, q)]));
  }

  lemma BatchReplays(log: seq<Message>, s: State, high: nat, size: nat, n: State)
    requires WellFormedLog(log) && Replays(log, s, high)
    requires n == Next(log, s, Batch(size, true))
    ensures Replays(log, n, Max(high, Position(log, n.checkpoint)))
  {
    var p := Position(log, s.checkpoint);
    var k := Min(size, |log| - p);
    if k > 0 {
      CommitReplays(log, s, high, p, p + k, n);
    }
  }

  lemma FreshReplays(log: seq<Message>)
    requires WellFormedLog(log)
    ensures Position(log, 0) == 0 && Replays(log, START, 0)
  {
    PositionAt(log, 0);
    assert log[..0] == [];
  }

  /** Theorem: under any batching, crash, rebuild or rewind, the document table and the failure table
      are the one-event-at-a-time replay of the longest prefix projected since the last rebuild. */
  lemma {:induction false} RunIsReplay(log: seq<Message>, acts: seq<Action>)
    requires WellFormedLog(log)
    ensures Replays(log, Run(log, acts), HighWater(log, acts))
  {
    FreshReplays(log);
    if acts != [] {
      var init, a := acts[..|acts| - 1], acts[|acts| - 1];
      RunIsReplay(log, init);
      var s := Run(log, init);
      match a
      case Rebuild =>
      case Rewind(back) => PositionMonotone(log, Min(back, s.checkpoint), s.checkpoint);
      case Batch(size, commits) =>
        if commits {
          BatchReplays(log, s, HighWater(log, init), size, Run(log, acts));
        }
    }
  }

  /** Without rewinds the checkpoint names exactly the projected prefix, so both tables are the replay of
      the log up to the checkpoint. */
  lemma TableIsReplayOfCheckpoint(log: seq<Message>, acts: seq<Action>)
    requires WellFormedLog(log) && forall a <- acts :: !a.Rewind?
    ensures var s := Run(log, acts);
            s.table == Replay(log[..Position(log, s.checkpoint)])
            && s.failures == ReplayFailures(log[..Position(log, s.checkpoint)])
  {
    RunIsReplay(log, acts);
    HighIsCheckpoint(log, acts);
  }

  /** Why message `i` does not fold, if it does not: it is not an event, or it is a component's create, or it is not
      a create and no user's create of its document came before it. */
  ghost function WhyFailed(log: seq<Message>, i: nat): Option<FailureKind>
    requires i < |log|
  {
    match log[i].payload
    case Unknown(_) => Some(UnknownEvent)
    case Malformed => Some(NotJson)
    case Event(e) =>
      if e.payload.DocumentCreated? then (if e.actor.System? then Some(FoldFailure(SystemActorCreate)) else None)
      else if CreatedBefore(log, i, Key(e.tenantId, e.documentId)) then None
      else Some(FoldFailure(NoPriorState))
  }

  ghost predicate CreatedBefore(log: seq<Message>, i: nat, k: Key)
    requires i <= |log|
  {
    exists j :: 0 <= j < i && For(log[j], k) && CreatesByUser(Entry(log[j].sequence, log[j].payload.event))
  }

  lemma {:induction false} EntriesCreate(log: seq<Message>, i: nat, k: Key)
    requires i <= |log|
    ensures CreatedBefore(log, i, k) <==> exists x <- Entries(log[..i], k) :: CreatesByUser(x)
  {
    if i > 0 {
      EntriesCreate(log, i - 1, k);
      assert log[..i][..i - 1] == log[..i - 1];
      var init, m := Entries(log[..i - 1], k), log[i - 1];
      assert CreatedBefore(log, i, k) <==>
             CreatedBefore(log, i - 1, k) || (For(m, k) && CreatesByUser(Entry(m.sequence, m.payload.event)));
      assert Entries(log[..i], k) == init + (if For(m, k) then [Entry(m.sequence, m.payload.event)] else []);
    }
  }

  lemma OutcomeIs(log: seq<Message>, i: nat)
    requires WellFormedLog(log) && i < |log|
    ensures WhyFailed(log, i) == if OutcomeAt(log, i).Failure? then Some(OutcomeAt(log, i).kind) else None
  {
    if log[i].payload.Event? {
      var e := log[i].payload.event;
      var k := Key(e.tenantId, e.documentId);
      assert Addressed(log[i]);
      EntriesCreate(log, i, k);
      ReplayByKey(log[..i], k);
      FoldFromNothing(k.tenant, k.doc, Entries(log[..i], k));
      ApplyRefuses(Get(Replay(log[..i]), k), Entry(log[i].sequence, e));
    }
  }

  /** Theorem: under any batching, crash, rebuild or rewind, the failure table holds exactly the messages of the
      projected prefix that do not fold, each with its subject, its payload and the reason. */
  lemma FailureTableIs(log: seq<Message>, acts: seq<Action>, i: nat)
    requires WellFormedLog(log) && i < |log|
    ensures var f, n := Run(log, acts).failures, log[i].sequence;
            && (n in f <==> i < HighWater(log, acts) && WhyFailed(log, i).Some?)
            && (n in f ==> f[n] == FailureRow(log[i].subject, log[i].payload, WhyFailed(log, i).value))
  {
    RunIsReplay(log, acts);
    FailuresExact(log, HighWater(log, acts), i);
    OutcomeIs(log, i);
  }

  /** Theorem: likewise, the row of a document is the fold of its own events in that prefix, and nothing else. */
  lemma RowIsTheDocumentsFold(log: seq<Message>, acts: seq<Action>, k: Key)
    requires WellFormedLog(log)
    ensures HighWater(log, acts) <= |log|
    ensures Get(Run(log, acts).table, k) == FoldSkip(None, Entries(log[..HighWater(log, acts)], k))
  {
    RunIsReplay(log, acts);
    AddressedAll(log);
    ReplayByKey(log[..HighWater(log, acts)], k);
  }

  /** A batch never moves the checkpoint's position back. */
  lemma BatchAdvances(log: seq<Message>, s: State, size: nat, commits: bool)
    requires WellFormedLog(log)
    ensures Position(log, Next(log, s, Batch(size, commits)).checkpoint) >= Position(log, s.checkpoint)
  {
    var p := Position(log, s.checkpoint);
    if commits && 0 < size && p < |log| {
      PositionAfterBatch(log, p, p + Min(size, |log| - p));
    }
  }

  lemma {:induction false} HighIsCheckpoint(log: seq<Message>, acts: seq<Action>)
    requires WellFormedLog(log) && forall a <- acts :: !a.Rewind?
    ensures HighWater(log, acts) == Position(log, Run(log, acts).checkpoint)
  {
    if acts == [] {
      PositionAt(log, 0);
    } else {
      var init, a := acts[..|acts| - 1], acts[|acts| - 1];
      HighIsCheckpoint(log, init);
      assert a in acts;
      if a.Rebuild? {
        PositionAt(log, 0);
      } else {
        BatchAdvances(log, Run(log, init), a.size, a.commits);
      }
    }
  }

  /** Rewinding to any earlier point and running again, in any batches and with any crashes, never
      loses ground; and until a new message is projected the tables are the ones that were there. */
  lemma RewindIsHarmless(log: seq<Message>, before: seq<Action>, back: nat, again: seq<Action>)
    requires WellFormedLog(log)
    requires forall a <- again :: !a.Rebuild?
    ensures var s := Run(log, before + ([Rewind(back)] + again));
            var h := HighWater(log, before);
            var top := HighWater(log, before + ([Rewind(back)] + again));
            && Run(log, before + [Rewind(back)]).checkpoint <= back
            && h <= top <= |log|
            && s.table == Replay(log[..top]) && s.failures == ReplayFailures(log[..top])
            && (top == h ==> s.table == Run(log, before).table && s.failures == Run(log, before).failures)
  {
    RunIsReplay(log, before);
    RunIsReplay(log, before + ([Rewind(back)] + again));
    HighNeverDrops(log, before, [Rewind(back)] + again);
    assert (before + [Rewind(back)])[..|before|] == before;
  }

  lemma {:induction false} HighNeverDrops(log: seq<Message>, before: seq<Action>, again: seq<Action>)
    requires forall a <- again :: !a.Rebuild?
    ensures HighWater(log, before + again) >= HighWater(log, before)
  {
    if again == [] {
      assert before + again == before;
    } else {
      var init := again[..|again| - 1];
      assert (before + again)[..|before + again| - 1] == before + init;
      assert again[|again| - 1] in again;
      HighNeverDrops(log, before, init);
    }
  }
}
