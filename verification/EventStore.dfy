/** The append-only log: one stream per document, dedupe on the message id before the
    expected-sequence check. */
module EventStore {
  import opened Wrappers
  import opened Domain
  import opened Fold
  import opened Subject

  datatype SeenKey = SeenKey(key: Key, id: EventId)

  datatype Log = Log(streams: map<Key, seq<Entry>>, seen: map<SeenKey, nat>, head: nat)

  datatype Expect = CreateOnly | Exactly(seqNo: nat)

  datatype Appended = Appended(streamSeq: nat, version: nat, duplicate: bool)

  datatype StoreError = Conflict | Unavailable

  datatype Tail = Tail(version: nat, streamSeq: nat)

  function KeyOf(e: DocumentEvent): Key {
    Key(e.tenantId, e.documentId)
  }

  function Stream(log: Log, k: Key): seq<Entry> {
    if k in log.streams then log.streams[k] else []
  }

  function LastSeq(xs: seq<Entry>): nat {
    if xs == [] then 0 else xs[|xs| - 1].seqNo
  }

  function Last(log: Log, k: Key): Option<Tail> {
    var xs := Stream(log, k);
    if xs == [] then None else Some(Tail(xs[|xs| - 1].event.version, xs[|xs| - 1].seqNo))
  }

  function Expected(x: Expect): nat {
    match x
    case CreateOnly => 0
    case Exactly(n) => n
  }

  predicate Duplicate(log: Log, e: DocumentEvent) {
    SeenKey(KeyOf(e), e.eventId) in log.seen
  }

  predicate Lands(log: Log, e: DocumentEvent, x: Expect) {
    !Duplicate(log, e) && LastSeq(Stream(log, KeyOf(e))) == Expected(x)
  }

  /** The log after a publish: one entry longer when it lands, unchanged otherwise. */
  function Publish(log: Log, e: DocumentEvent, x: Expect): Log {
    if Lands(log, e, x) then
      var n := log.head + 1;
      Log(log.streams[KeyOf(e) := Stream(log, KeyOf(e)) + [Entry(n, e)]],
          log.seen[SeenKey(KeyOf(e), e.eventId) := n], n)
    else log
  }

  function VersionAt(xs: seq<Entry>, seqNo: nat, otherwise: nat): nat {
    if xs == [] then otherwise
    else if xs[0].seqNo == seqNo then xs[0].event.version
    else VersionAt(xs[1..], seqNo, otherwise)
  }

  function PublishReply(log: Log, e: DocumentEvent, x: Expect): Result<Appended, StoreError> {
    if Duplicate(log, e) then
      var n := log.seen[SeenKey(KeyOf(e), e.eventId)];
      Ok(Appended(n, VersionAt(Stream(log, KeyOf(e)), n, e.version), true))
    else if Lands(log, e, x) then Ok(Appended(log.head + 1, e.version, false))
    else Err(Conflict)
  }

  // ------------------------------------------------------------------ growth

  /** Streams only ever grow at the end. */
  ghost predicate Grows(a: Log, b: Log) {
    forall k: Key :: Stream(a, k) <= Stream(b, k)
  }

  lemma PublishGrows(log: Log, e: DocumentEvent, x: Expect)
    ensures Grows(log, Publish(log, e, x))
    ensures forall k: Key :: k != KeyOf(e) ==> Stream(Publish(log, e, x), k) == Stream(log, k)
  {
  }

  lemma GrowsTrans(a: Log, b: Log, c: Log)
    requires Grows(a, b) && Grows(b, c)
    ensures Grows(a, c)
  {
    forall k: Key
      ensures Stream(a, k) <= Stream(c, k)
    {
      assert Stream(a, k) <= Stream(b, k) && Stream(b, k) <= Stream(c, k);
    }
  }

  /** Sequences rise along every stream and never pass the head. */
  ghost predicate Ordered(log: Log) {
    forall k: Key :: OrderedStream(Stream(log, k), log.head)
  }

  predicate OrderedStream(xs: seq<Entry>, head: nat) {
    && (forall i :: 0 <= i < |xs| ==> 0 < xs[i].seqNo <= head)
    && forall i, j :: 0 <= i < j < |xs| ==> xs[i].seqNo < xs[j].seqNo
  }

  lemma PublishOrdered(log: Log, e: DocumentEvent, x: Expect)
    requires Ordered(log)
    ensures Ordered(Publish(log, e, x))
  {
    var n := Publish(log, e, x);
    forall k: Key
      ensures OrderedStream(Stream(n, k), n.head)
    {
      assert OrderedStream(Stream(log, k), log.head);
    }
  }

  /** A stream whose last sequence is the one read earlier has not moved since. */
  lemma CasMeansUnchanged(read: seq<Entry>, now: seq<Entry>, head: nat)
    requires OrderedStream(now, head) && read <= now && read != []
    requires LastSeq(read) == LastSeq(now)
    ensures read == now
  {
    assert forall i :: 0 <= i < |now| - 1 ==> now[i].seqNo < now[|now| - 1].seqNo;
  }

  // ------------------------------------------------------------------ what a dedupe answers

  lemma {:induction false} VersionAtIs(xs: seq<Entry>, i: nat, otherwise: nat)
    requires i < |xs| && forall j :: 0 <= j < i ==> xs[j].seqNo != xs[i].seqNo
    ensures VersionAt(xs, xs[i].seqNo, otherwise) == xs[i].event.version
  {
    if i > 0 {
      VersionAtIs(xs[1..], i - 1, otherwise);
    }
  }

  /** Every remembered message id stands for the entry it was stored as. */
  ghost predicate SeenIsStored(log: Log) {
    forall s :: s in log.seen ==> StoredAs(Stream(log, s.key), s.id, log.seen[s])
  }

  predicate StoredAs(xs: seq<Entry>, id: EventId, seqNo: nat) {
    exists i :: 0 <= i < |xs| && xs[i].event.eventId == id && xs[i].seqNo == seqNo
  }

  lemma PublishStores(log: Log, e: DocumentEvent, x: Expect)
    requires SeenIsStored(log)
    ensures SeenIsStored(Publish(log, e, x))
  {
    var n := Publish(log, e, x);
    forall s | s in n.seen
      ensures StoredAs(Stream(n, s.key), s.id, n.seen[s])
    {
      var ys := Stream(n, s.key);
      if Lands(log, e, x) && s == SeenKey(KeyOf(e), e.eventId) {
        assert ys[|ys| - 1] == Entry(log.head + 1, e);
      } else {
        var xs := Stream(log, s.key);
        var i :| 0 <= i < |xs| && xs[i].event.eventId == s.id && xs[i].seqNo == log.seen[s];
        assert ys[i] == xs[i];
      }
    }
  }

  /** A publish is answered with the new sequence and the event's version exactly when it lands; a message id
      published before with the sequence and the version it got then; anything else is a conflict. */
  lemma PublishAnswers(log: Log, e: DocumentEvent, x: Expect)
    requires Ordered(log) && SeenIsStored(log)
    ensures var xs, r := Stream(log, KeyOf(e)), PublishReply(log, e, x);
            if SeenKey(KeyOf(e), e.eventId) in log.seen
            then exists i :: 0 <= i < |xs| && xs[i].event.eventId == e.eventId
                             && r == Ok(Appended(xs[i].seqNo, xs[i].event.version, true))
            else if (match x case CreateOnly => xs == [] case Exactly(n) => LastSeq(xs) == n)
            then
              && r == Ok(Appended(log.head + 1, e.version, false))
              && Stream(Publish(log, e, x), KeyOf(e)) == xs + [Entry(log.head + 1, e)]
              && SeenKey(KeyOf(e), e.eventId) in Publish(log, e, x).seen
            else r == Err(Conflict)
    ensures PublishReply(log, e, x).Err? || PublishReply(log, e, x).value.duplicate ==> Publish(log, e, x) == log
  {
    var xs := Stream(log, KeyOf(e));
    assert OrderedStream(xs, log.head);
    var s := SeenKey(KeyOf(e), e.eventId);
    if s in log.seen {
      assert StoredAs(xs, s.id, log.seen[s]);
      var i :| 0 <= i < |xs| && xs[i].event.eventId == s.id && xs[i].seqNo == log.seen[s];
      VersionAtIs(xs, i, e.version);
    }
  }

  // ------------------------------------------------------------------ the in-memory port

  /** A publish by some other writer. */
  datatype Other = Other(event: DocumentEvent, expects: Expect)

  function PublishAll(log: Log, others: seq<Other>): Log {
    if others == [] then log
    else
      var n := |others| - 1;
      Publish(PublishAll(log, others[..n]), others[n].event, others[n].expects)
  }

  lemma {:induction false} PublishAllGrows(log: Log, others: seq<Other>)
    ensures Grows(log, PublishAll(log, others))
    ensures Ordered(log) ==> Ordered(PublishAll(log, others))
  {
    if others != [] {
      var n := |others| - 1;
      PublishAllGrows(log, others[..n]);
      if Ordered(log) {
        PublishOrdered(PublishAll(log, others[..n]), others[n].event, others[n].expects);
      }
      PublishGrows(PublishAll(log, others[..n]), others[n].event, others[n].expects);
      GrowsTrans(log, PublishAll(log, others[..n]), PublishAll(log, others));
    }
  }

  class MemoryEventStore {
    var streams: map<Key, seq<Entry>>
    var seen: map<SeenKey, nat>
    var head: nat

    constructor ()
      ensures Value() == Log(map[], map[], 0)
    {
      streams, seen, head := map[], map[], 0;
    }

    ghost function Value(): Log
      reads this
    {
      Log(streams, seen, head)
    }

    method Append(e: DocumentEvent, x: Expect) returns (r: Result<Appended, StoreError>)
      modifies this
      ensures Value() == Publish(old(Value()), e, x)
      ensures r == PublishReply(old(Value()), e, x)
    {
      var key := KeyOf(e);
      var dedupe := SeenKey(key, e.eventId);
      var events := if key in streams then streams[key] else [];
      if dedupe in seen {
        var n := seen[dedupe];
        var version := FindVersion(events, n, e.version);
        return Ok(Appended(n, version, true));
      }
      var lastSeq := if events == [] then 0 else events[|events| - 1].seqNo;
      var expected := match x case CreateOnly => 0 case Exactly(n) => n;
      if lastSeq != expected {
        return Err(Conflict);
      }
      head := head + 1;
      seen := seen[dedupe := head];
      streams := streams[key := events + [Entry(head, e)]];
      return Ok(Appended(head, e.version, false));
    }

    method FindVersion(events: seq<Entry>, n: nat, otherwise: nat) returns (v: nat)
      ensures v == VersionAt(events, n, otherwise)
    {
      var i := 0;
      while i < |events|
        invariant i <= |events| && VersionAt(events, n, otherwise) == VersionAt(events[i..], n, otherwise)
      {
        if events[i].seqNo == n {
          return events[i].event.version;
        }
        assert events[i..][1..] == events[i + 1..];
        i := i + 1;
      }
      return otherwise;
    }

    method ReadLast(k: Key) returns (r: Option<Tail>)
      ensures r == Last(Value(), k)
    {
      if k !in streams || streams[k] == [] {
        return None;
      }
      var events := streams[k];
      var x := events[|events| - 1];
      return Some(Tail(x.event.version, x.seqNo));
    }

    method ReadStream(k: Key) returns (xs: seq<Entry>)
      ensures xs == Stream(Value(), k)
    {
      xs := if k in streams then streams[k] else [];
    }

    /** What the rest of the system publishes between two of our calls. */
    method Interfere(others: seq<Other>)
      modifies this
      ensures Value() == PublishAll(old(Value()), others)
    {
      for i := 0 to |others|
        invariant Value() == PublishAll(old(Value()), others[..i])
      {
        assert others[..i + 1][..i] == others[..i];
        var _ := Append(others[i].event, others[i].expects);
      }
      assert others[..|others|] == others;
    }
  }
}

/** The two append paths. Between any two store calls other writers may publish anything: `others(c)` is what lands
    before the call number `c` of this operation, and `ports(c)` how that call goes. */
module AppendPaths {
  import opened Wrappers
  import opened Domain
  import opened Fold
  import opened Subject
  import opened EventStore

  const UPDATE_ATTEMPTS := 3

  datatype AppendError =
    | AlreadyCreated
    | NoSuchDocument
    | VersionMismatch(client: nat, current: nat)
    | ConflictRetryExhausted
    | Store(error: StoreError)

  type Interference = nat -> seq<Other>

  type Ports = nat -> Port

  const STORE_FAILED := Store(Unavailable)

  function Length(log: Log, k: Key): nat {
    |Stream(log, k)|
  }

  /** Let the other writers run before call number `call`; `landed` of their events land on the document. */
  method Yield(store: MemoryEventStore, k: Key, others: Interference, call: nat) returns (ghost landed: nat)
    modifies store
    ensures Grows(old(store.Value()), store.Value())
    ensures old(Ordered(store.Value())) ==> Ordered(store.Value())
    ensures Length(store.Value(), k) == old(Length(store.Value(), k)) + landed
  {
    PublishAllGrows(store.Value(), others(call));
    store.Interfere(others(call));
    assert old(Stream(store.Value(), k)) <= Stream(store.Value(), k);
    landed := |Stream(store.Value(), k)| - |old(Stream(store.Value(), k))|;
  }

  /** Re-read the authoritative pair after a dedupe. */
  method ResolveDuplicate(store: MemoryEventStore, k: Key, appended: Appended, others: Interference, ports: Ports,
                          call: nat)
    returns (r: Result<Appended, AppendError>, ghost foreign: nat)
    modifies store
    ensures Grows(old(store.Value()), store.Value())
    ensures Length(store.Value(), k) == old(Length(store.Value(), k)) + foreign
    ensures !appended.duplicate ==> r == Ok(appended) && store.Value() == old(store.Value())
    ensures appended.duplicate && !ports(call).Works? ==> r == Err(STORE_FAILED)
    ensures appended.duplicate && ports(call).Works? ==>
              match Last(store.Value(), k)
              case None => r == Err(NoSuchDocument)
              case Some(t) => r == Ok(Appended(t.streamSeq, t.version, true))
  {
    foreign := 0;
    if !appended.duplicate {
      return Ok(appended), 0;
    }
    foreign := Yield(store, k, others, call);
    if !ports(call).Works? {
      return Err(STORE_FAILED), foreign;
    }
    var last := store.ReadLast(k);
    if last.None? {
      return Err(NoSuchDocument), foreign;
    }
    return Ok(Appended(last.value.streamSeq, last.value.version, true)), foreign;
  }

  /** How many events of the operation itself are on the document when it answers: a lost reply may hide one. */
  predicate OwnEvents(own: nat, r: Result<Appended, AppendError>) {
    match r
    case Ok(a) => own == if a.duplicate then 0 else 1
    case Err(Store(_)) => own <= 1
    case Err(_) => own == 0
  }

  /** The first event of a document. A conflict is the answer, never retried. */
  method AppendCreate(store: MemoryEventStore, e: DocumentEvent, others: Interference, ports: Ports)
    returns (r: Result<Appended, AppendError>, ghost foreign: nat, ghost own: nat)
    requires Ordered(store.Value())
    modifies store
    ensures Grows(old(store.Value()), store.Value())
    ensures Length(store.Value(), KeyOf(e)) == old(Length(store.Value(), KeyOf(e))) + foreign + own && OwnEvents(own, r)
    ensures r.Ok? && !r.value.duplicate ==>
              && Stream(store.Value(), KeyOf(e)) == [Entry(r.value.streamSeq, e)]
              && r.value.version == e.version
    ensures r.Ok? && r.value.duplicate ==>
              Last(store.Value(), KeyOf(e)) == Some(Tail(r.value.version, r.value.streamSeq))
    ensures r == Err(AlreadyCreated) ==> Stream(store.Value(), KeyOf(e)) != []
    ensures r.Err? ==> r.error in {AlreadyCreated, NoSuchDocument, STORE_FAILED}
    ensures r == Err(STORE_FAILED) ==> !(ports(0).Works? && ports(1).Works?)
    ensures !ports(0).Works? ==> r == Err(STORE_FAILED)
  {
    foreign := Yield(store, KeyOf(e), others, 0);
    own := 0;
    if !TakesEffect(ports(0)) {
      return Err(STORE_FAILED), foreign, 0;
    }
    ghost var before := store.Value();
    PublishGrows(before, e, CreateOnly);
    GrowsTrans(old(store.Value()), before, Publish(before, e, CreateOnly));
    assert OrderedStream(Stream(before, KeyOf(e)), before.head);
    var reply := store.Append(e, CreateOnly);
    ghost var after := store.Value();
    own := if Lands(before, e, CreateOnly) then 1 else 0;
    if !ports(0).Works? {
      return Err(STORE_FAILED), foreign, own;
    }
    match reply {
      case Err(_) => r := Err(AlreadyCreated);
      case Ok(appended) =>
        ghost var more;
        r, more := ResolveDuplicate(store, KeyOf(e), appended, others, ports, 1);
        foreign := foreign + more;
        GrowsTrans(old(store.Value()), after, store.Value());
    }
  }

  /** What each answer of an update says about the log it left behind.
      - A landed event is the last one, one version above the event right before it, which is the
        version the client named.
      - A deduplicated one reports the current tail.
      - A version mismatch reports the current version, and that is not the client's.
      - A store failure says nothing. */
  ghost predicate UpdateAnswer(log: Log, k: Key, clientVersion: Option<nat>, build: nat -> DocumentEvent,
                               r: Result<Appended, AppendError>)
  {
    var xs := Stream(log, k);
    match r
    case Ok(a) =>
      if a.duplicate then Last(log, k) == Some(Tail(a.version, a.streamSeq))
      else
        && |xs| >= 2 && xs[|xs| - 1] == Entry(a.streamSeq, build(xs[|xs| - 2].event.version + 1))
        && a.version == xs[|xs| - 1].event.version
        && (clientVersion.Some? ==> clientVersion.value == xs[|xs| - 2].event.version)
    case Err(NoSuchDocument) => xs == []
    case Err(VersionMismatch(client, current)) =>
      && clientVersion == Some(client) && client != current
      && Last(log, k).Some? && Last(log, k).value.version == current
    case Err(e) => e == STORE_FAILED
  }

  /** A store failure comes from a call that did not work. */
  ghost predicate Explained(r: Result<Appended, AppendError>, ports: Ports) {
    r == Err(STORE_FAILED) ==> exists c: nat :: !ports(c).Works?
  }

  /** The append half of a turn: `t` is the tail as this call finds it. */
  method CompareAndAppend(store: MemoryEventStore, k: Key, t: Tail, clientVersion: Option<nat>,
                          build: nat -> DocumentEvent, others: Interference, ports: Ports, call: nat)
    returns (answered: bool, r: Result<Appended, AppendError>, ghost foreign: nat, ghost own: nat)
    requires Ordered(store.Value()) && Last(store.Value(), k) == Some(t)
    requires forall v: nat :: KeyOf(build(v)) == k
    requires clientVersion.Some? ==> clientVersion.value == t.version
    modifies store
    ensures Grows(old(store.Value()), store.Value())
    ensures Length(store.Value(), k) == old(Length(store.Value(), k)) + foreign + own
    ensures answered ==> UpdateAnswer(store.Value(), k, clientVersion, build, r)
    ensures answered ==> OwnEvents(own, r) && Explained(r, ports)
    ensures !answered ==> Ordered(store.Value()) && own == 0 && foreign > 0
  {
    ghost var read := store.Value();
    foreign := Yield(store, k, others, call);
    own := 0;
    if !TakesEffect(ports(call)) {
      return true, Err(STORE_FAILED), foreign, 0;
    }
    ghost var before := store.Value();
    var e := build(t.version + 1);
    PublishGrows(before, e, Exactly(t.streamSeq));
    PublishOrdered(before, e, Exactly(t.streamSeq));
    CasAnswer(read, before, k, t, clientVersion, build, e, Publish(before, e, Exactly(t.streamSeq)));
    var reply := store.Append(e, Exactly(t.streamSeq));
    ghost var after := store.Value();
    own := if Lands(before, e, Exactly(t.streamSeq)) then 1 else 0;
    GrowsTrans(read, before, after);
    if !ports(call).Works? {
      return true, Err(STORE_FAILED), foreign, own;
    }
    if reply.Err? {
      return false, Err(ConflictRetryExhausted), foreign, 0;
    }
    if !reply.value.duplicate {
      return true, Ok(reply.value), foreign, own;
    }
    ghost var more;
    r, more := ResolveDuplicate(store, k, reply.value, others, ports, call + 1);
    GrowsTrans(read, after, store.Value());
    return true, r, foreign + more, 0;
  }

  /** One turn of the retry loop: read the tail, compare the client's version, compare-and-append. A turn
      that does not answer lost to at least one event of someone else on this document. */
  method AttemptUpdate(store: MemoryEventStore, k: Key, clientVersion: Option<nat>,
                       build: nat -> DocumentEvent, others: Interference, ports: Ports, call: nat)
    returns (answered: bool, r: Result<Appended, AppendError>, ghost foreign: nat, ghost own: nat)
    requires Ordered(store.Value()) && forall v: nat :: KeyOf(build(v)) == k
    modifies store
    ensures Grows(old(store.Value()), store.Value())
    ensures Length(store.Value(), k) == old(Length(store.Value(), k)) + foreign + own
    ensures answered ==> UpdateAnswer(store.Value(), k, clientVersion, build, r)
    ensures answered ==> OwnEvents(own, r) && Explained(r, ports)
    ensures !answered ==> Ordered(store.Value()) && own == 0 && foreign > 0
  {
    ghost var start := store.Value();
    foreign := Yield(store, k, others, call);
    own := 0;
    if !ports(call).Works? {
      return true, Err(STORE_FAILED), foreign, 0;
    }
    ghost var read := store.Value();
    var last := store.ReadLast(k);
    if last.None? {
      return true, Err(NoSuchDocument), foreign, 0;
    }
    var Tail(version, seqNo) := last.value;
    if clientVersion.Some? && clientVersion.value != version {
      return true, Err(VersionMismatch(clientVersion.value, version)), foreign, 0;
    }
    ghost var more;
    answered, r, more, own := CompareAndAppend(store, k, last.value, clientVersion, build, others, ports, call + 1);
    foreign := foreign + more;
    GrowsTrans(start, read, store.Value());
  }

  /** A compare-and-append on a tail read earlier either lands right behind that tail, or finds the
      stream longer than it was. */
  lemma CasAnswer(read: Log, before: Log, k: Key, t: Tail, clientVersion: Option<nat>,
                  build: nat -> DocumentEvent, e: DocumentEvent, after: Log)
    requires Grows(read, before) && OrderedStream(Stream(before, k), before.head) && Last(read, k) == Some(t)
    requires e == build(t.version + 1) && KeyOf(e) == k
    requires clientVersion.Some? ==> clientVersion.value == t.version
    requires after == Publish(before, e, Exactly(t.streamSeq))
    ensures var reply := PublishReply(before, e, Exactly(t.streamSeq));
            && (reply.Err? ==> |Stream(before, k)| > |Stream(read, k)|)
            && (reply.Ok? && !reply.value.duplicate ==>
                  UpdateAnswer(after, k, clientVersion, build, Ok(reply.value)))
  {
    var was, xs := Stream(read, k), Stream(before, k);
    assert was <= xs;
    if Lands(before, e, Exactly(t.streamSeq)) {
      CasMeansUnchanged(was, xs, before.head);
      assert Stream(after, k) == was + [Entry(before.head + 1, e)];
    }
  }

  /** Every later event, tried at most three times, with any other writers between its calls and any of its calls
      failing before or after it takes effect. The document grew by the `foreign` events of others and the
      operation's `own`. Giving up means that at least three events of others landed during the call, and none of its
      own. */
  method AppendUpdate(store: MemoryEventStore, k: Key, clientVersion: Option<nat>,
                      build: nat -> DocumentEvent, others: Interference, ports: Ports)
    returns (r: Result<Appended, AppendError>, ghost foreign: nat, ghost own: nat)
    requires Ordered(store.Value()) && forall v: nat :: KeyOf(build(v)) == k
    modifies store
    ensures Grows(old(store.Value()), store.Value())
    ensures Length(store.Value(), k) == old(Length(store.Value(), k)) + foreign + own && OwnEvents(own, r)
    ensures r != Err(ConflictRetryExhausted) ==> UpdateAnswer(store.Value(), k, clientVersion, build, r)
    ensures r == Err(ConflictRetryExhausted) ==> foreign >= 3 && own == 0
    ensures Explained(r, ports)
  {
    ghost var start := store.Value();
    foreign, own := 0, 0;
    for i := 0 to UPDATE_ATTEMPTS
      invariant Ordered(store.Value()) && Grows(start, store.Value())
      invariant Length(store.Value(), k) == Length(start, k) + foreign && own == 0
      invariant foreign >= i
    {
      ghost var here := store.Value();
      ghost var more, mine;
      var answered, answer;
      answered, answer, more, mine := AttemptUpdate(store, k, clientVersion, build, others, ports, 3 * i);
      GrowsTrans(start, here, store.Value());
      if answered {
        return answer, foreign + more, mine;
      }
      foreign := foreign + more;
    }
    return Err(ConflictRetryExhausted), foreign, 0;
  }
}
