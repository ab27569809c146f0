/** The upload record: what preflight fixed, where the upload has got to, and the
    compare-and-swap store that holds it for a bounded time. */
module UploadRecord {
  import opened Wrappers
  import opened Domain

  datatype UploadMode = Create | Replace

  datatype UploadStatus =
    | Uploading
    | Scanning
    | Accepted(version: nat, superseded: bool)
    | Rejected(reason: string)

  predicate IsTerminal(s: UploadStatus) {
    s.Accepted? || s.Rejected?
  }

  /** The half of the record that preflight fixes. */
  datatype Preflight = Preflight(
    tenantId: Id,
    ownerUserId: Id,
    uploadId: Id,
    documentId: Id,
    mode: UploadMode,
    multipartUploadId: Id,
    filename: string,
    contentType: string,
    declaredSize: nat,
    partSizeBytes: nat,
    partCount: nat,
    createdAt: int)

  datatype UploadState = UploadState(pre: Preflight, status: UploadStatus, updatedAt: int)

  /** `<tenant>/<user>/<upload>`: the caller is in the key. */
  datatype RecordKey = RecordKey(tenant: Id, user: Id, upload: Id)

  datatype Stored = Stored(state: UploadState, revision: nat)

  type Records = map<RecordKey, Stored>

  function OwnKey(p: Preflight): RecordKey {
    RecordKey(p.tenantId, p.ownerUserId, p.uploadId)
  }

  function WithStatus(s: UploadState, status: UploadStatus, now: int): UploadState {
    s.(status := status, updatedAt := now)
  }

  /** A record belongs to one tenant, one user and one upload: no two share a key. */
  lemma KeysAreApart(p: Preflight, q: Preflight)
    ensures OwnKey(p) == OwnKey(q) <==>
            p.tenantId == q.tenantId && p.ownerUserId == q.ownerUserId && p.uploadId == q.uploadId
  {
  }

  datatype ContextError = AlreadyExists | Conflict | Expired | Unavailable

  /** Compare-and-swap on the revision. */
  function Update(rs: Records, s: UploadState, revision: nat): Records {
    var k := OwnKey(s.pre);
    if k in rs && rs[k].revision == revision then rs[k := Stored(s, revision + 1)] else rs
  }

  function UpdateReply(rs: Records, s: UploadState, revision: nat): Result<nat, ContextError> {
    var k := OwnKey(s.pre);
    if k !in rs then Err(Expired)
    else if rs[k].revision != revision then Err(Conflict)
    else Ok(revision + 1)
  }

  /** `create`, never `put`. */
  function CreateRecord(rs: Records, s: UploadState): Records {
    var k := OwnKey(s.pre);
    if k in rs then rs else rs[k := Stored(s, 1)]
  }
}

/** The one way a status moves, run by any number of unordered callers. */
module Transition {
  import opened Wrappers
  import opened UploadRecord

  const CAS_ATTEMPTS := 3

  datatype Outcome =
    | Applied(state: UploadState)
    | AlreadyTerminal(state: UploadState)
    | RecordExpired
    | GaveUp
    | StoreFailed

  /** A call in progress: about to read, or holding what it read and about to swap. */
  datatype Call = Reading(attempt: nat) | Swapping(attempt: nat, read: Stored) | Returned(outcome: Outcome)

  function CallRecords(rs: Records, status: UploadStatus, now: int, call: Call, port: Port): Records {
    if call.Swapping? && TakesEffect(port)
    then Update(rs, WithStatus(call.read.state, status, now), call.read.revision)
    else rs
  }

  function CallNext(rs: Records, key: RecordKey, status: UploadStatus, now: int, call: Call, port: Port): Call {
    match call
    case Reading(a) =>
      if !port.Works? then Returned(StoreFailed)
      else if key !in rs then Returned(RecordExpired)
      else if IsTerminal(rs[key].state.status) then Returned(AlreadyTerminal(rs[key].state))
      else Swapping(a, rs[key])
    case Swapping(a, read) =>
      if !port.Works? then Returned(StoreFailed)
      else
        var next := WithStatus(read.state, status, now);
        (match UpdateReply(rs, next, read.revision)
         case Ok(_) => Returned(Applied(next))
         case Err(Conflict) => if a + 1 < CAS_ATTEMPTS then Reading(a + 1) else Returned(GaveUp)
         case Err(Expired) => Returned(RecordExpired)
         case Err(_) => Returned(StoreFailed))
    case Returned(_) => call
  }

  // ------------------------------------------------------------------ all interleavings

  datatype Caller = Caller(key: RecordKey, status: UploadStatus, call: Call)

  datatype World = World(records: Records, created: set<RecordKey>, callers: map<nat, Caller>)

  datatype Action =
    | Preflights(state: UploadState)
    | Begins(pid: nat, key: RecordKey, status: UploadStatus)
    | Steps(pid: nat, now: int, port: Port)
    | Expires(key: RecordKey)

  const EMPTY := World(map[], {}, map[])

  function StepCaller(rs: Records, c: Caller, now: int, port: Port): Caller {
    c.(call := CallNext(rs, c.key, c.status, now, c.call, port))
  }

  function Next(w: World, a: Action): World {
    match a
    case Preflights(s) =>
      // Upload ids are fresh, so a key is created at most once.
      if OwnKey(s.pre) in w.created then w
      else w.(records := CreateRecord(w.records, s), created := w.created + {OwnKey(s.pre)})
    case Begins(pid, key, status) =>
      if pid in w.callers then w else w.(callers := w.callers[pid := Caller(key, status, Reading(0))])
    case Steps(pid, now, port) =>
      if pid !in w.callers then w
      else
        var c := w.callers[pid];
        w.(records := CallRecords(w.records, c.status, now, c.call, port),
           callers := w.callers[pid := StepCaller(w.records, c, now, port)])
    case Expires(key) => w.(records := w.records - {key})
  }

  function Run(acts: seq<Action>): World {
    if acts == [] then EMPTY else Next(Run(acts[..|acts| - 1]), acts[|acts| - 1])
  }

  /** What a caller knows: the record it read is not terminal, and the record either still is that one or has
      moved to a later revision. */
  predicate Knows(rs: Records, c: Caller) {
    c.call.Swapping? ==>
      var r := c.call.read;
      && OwnKey(r.state.pre) == c.key && !IsTerminal(r.state.status)
      && (c.key in rs ==> rs[c.key].revision > r.revision || rs[c.key] == r)
  }

  ghost predicate Inv(w: World) {
    && (forall k :: k in w.records ==> k in w.created && OwnKey(w.records[k].state.pre) == k)
    && forall p :: p in w.callers ==>
         Knows(w.records, w.callers[p]) && (w.callers[p].call.Swapping? ==> w.callers[p].key in w.created)
  }

  /** What one step may do to the record under `k`. */
  predicate RecordMoves(a: World, b: World, k: RecordKey) {
    && a.created <= b.created
    && (k in a.created && k !in a.records ==> k !in b.records)
    && (k in a.records && k in b.records ==>
          && b.records[k].state.pre == a.records[k].state.pre
          && (b.records[k] == a.records[k] || b.records[k].revision == a.records[k].revision + 1)
          && (IsTerminal(a.records[k].state.status) ==> b.records[k] == a.records[k]))
  }

  lemma StepMoves(w: World, a: Action, k: RecordKey)
    requires Inv(w)
    ensures RecordMoves(w, Next(w, a), k)
  {
    if a.Steps? && a.pid in w.callers {
      assert Knows(w.records, w.callers[a.pid]);
    }
  }

  lemma KnowsStable(a: Records, b: Records, c: Caller)
    requires Knows(a, c)
    requires c.key in b ==> c.key in a && (b[c.key] == a[c.key] || b[c.key].revision == a[c.key].revision + 1)
    ensures Knows(b, c)
  {
  }

  lemma StepInv(w: World, a: Action)
    requires Inv(w)
    ensures Inv(Next(w, a))
  {
    var n := Next(w, a);
    forall p | p in n.callers
      ensures Knows(n.records, n.callers[p]) && (n.callers[p].call.Swapping? ==> n.callers[p].key in n.created)
    {
      var key := n.callers[p].key;
      StepMoves(w, a, key);
      match a
      case Steps(pid, now, port) =>
        if pid in w.callers && p == pid {
          OwnStep(w.records, w.callers[p], now, port);
        } else {
          CallerStable(w, a, p);
        }
      case _ =>
        if p in w.callers {
          CallerStable(w, a, p);
        }
    }
  }

  lemma CallerStable(w: World, a: Action, p: nat)
    requires Inv(w) && p in w.callers && p in Next(w, a).callers && Next(w, a).callers[p] == w.callers[p]
    ensures Knows(Next(w, a).records, w.callers[p])
  {
    var c := w.callers[p];
    StepMoves(w, a, c.key);
    assert Knows(w.records, c);
    if c.key in w.created || c.key !in Next(w, a).records {
      KnowsStable(w.records, Next(w, a).records, c);
    }
  }

  lemma OwnStep(rs: Records, c: Caller, now: int, port: Port)
    requires Knows(rs, c) && (c.key in rs ==> OwnKey(rs[c.key].state.pre) == c.key)
    ensures Knows(CallRecords(rs, c.status, now, c.call, port), StepCaller(rs, c, now, port))
  {
  }

  lemma {:induction false} RunInv(acts: seq<Action>)
    ensures Inv(Run(acts))
  {
    if acts != [] {
      RunInv(acts[..|acts| - 1]);
      StepInv(Run(acts[..|acts| - 1]), acts[|acts| - 1]);
    }
  }

  /** Theorem: over every interleaving of any number of callers with expiry, from any point on: preflight
      fields never change, a terminal record never changes, an expired record never comes back. */
  lemma {:induction false} TerminalIsFinal(acts: seq<Action>, more: seq<Action>, k: RecordKey)
    ensures var a, b := Run(acts), Run(acts + more);
            && a.created <= b.created
            && (k in a.created && k !in a.records ==> k !in b.records)
            && (k in a.records && k in b.records ==>
                  && b.records[k].state.pre == a.records[k].state.pre
                  && b.records[k].revision >= a.records[k].revision
                  && (a.records[k].state.status.Accepted? || a.records[k].state.status.Rejected? ==>
                        b.records[k] == a.records[k]))
  {
    if more == [] {
      assert acts + more == acts;
    } else {
      var n := |more| - 1;
      assert (acts + more)[..|acts + more| - 1] == acts + more[..n];
      TerminalIsFinal(acts, more[..n], k);
      RunInv(acts);
      RunInv(acts + more[..n]);
      StepMoves(Run(acts + more[..n]), more[n], k);
    }
  }

  /** The action is someone else's, and writes the record the caller is after. */
  predicate WritesAnother(w: World, a: Action, p: nat) {
    && p in w.callers && !(a.Steps? && a.pid == p)
    && var key := w.callers[p].key;
       key in w.records && key in Next(w, a).records && Next(w, a).records[key] != w.records[key]
  }

  /** How often others wrote that record since the call began. */
  function WritesByOthers(acts: seq<Action>, p: nat): nat {
    if acts == [] then 0
    else
      var init := acts[..|acts| - 1];
      WritesByOthers(init, p) + if WritesAnother(Run(init), acts[|acts| - 1], p) then 1 else 0
  }

  /** Each attempt behind a call was lost to a write by someone else. */
  predicate LostTo(rs: Records, c: Caller, writes: nat) {
    match c.call
    case Reading(a) => a < CAS_ATTEMPTS && writes >= a
    case Swapping(a, read) =>
      a < CAS_ATTEMPTS && writes >= a && (c.key in rs && rs[c.key] != read ==> writes >= a + 1)
    case Returned(outcome) => outcome.GaveUp? ==> writes >= CAS_ATTEMPTS
  }

  lemma StepLoses(w: World, a: Action, p: nat, writes: nat)
    requires Inv(w) && p in Next(w, a).callers && (p in w.callers ==> LostTo(w.records, w.callers[p], writes))
    ensures LostTo(Next(w, a).records, Next(w, a).callers[p], writes + if WritesAnother(w, a, p) then 1 else 0)
  {
    if p in w.callers {
      assert Knows(w.records, w.callers[p]);
      if a.Steps? && a.pid == p {
        OwnLoses(w.records, w.callers[p], a.now, a.port, writes);
      } else {
        StepMoves(w, a, w.callers[p].key);
      }
    }
  }

  lemma OwnLoses(rs: Records, c: Caller, now: int, port: Port, writes: nat)
    requires Knows(rs, c) && LostTo(rs, c, writes)
    ensures LostTo(CallRecords(rs, c.status, now, c.call, port), StepCaller(rs, c, now, port), writes)
  {
  }

  lemma {:induction false} RunLoses(acts: seq<Action>, p: nat)
    requires p in Run(acts).callers
    ensures LostTo(Run(acts).records, Run(acts).callers[p], WritesByOthers(acts, p))
  {
    var n := |acts| - 1;
    if p in Run(acts[..n]).callers {
      RunLoses(acts[..n], p);
      RunInv(acts[..n]);
      StepLoses(Run(acts[..n]), acts[n], p, WritesByOthers(acts[..n], p));
    }
  }

  /** Theorem: a caller gives up only after others wrote its record at least three times since it began, whether the
      record still lives or not. */
  lemma GivingUpMeansThreeWrites(acts: seq<Action>, p: nat)
    requires p in Run(acts).callers && Run(acts).callers[p].call == Returned(GaveUp)
    ensures WritesByOthers(acts, p) >= 3
  {
    RunLoses(acts, p);
  }

  // ------------------------------------------------------------------ the loop itself

  /** A write or an expiry by someone else. */
  datatype Other = Writes(state: UploadState) | Lapses(key: RecordKey)

  class MemoryUploadStateStore {
    var entries: Records

    constructor ()
      ensures entries == map[]
    {
      entries := map[];
    }

    method Create(s: UploadState) returns (r: Result<(), ContextError>)
      modifies this
      ensures entries == CreateRecord(old(entries), s)
      ensures r == if OwnKey(s.pre) in old(entries) then Err(AlreadyExists) else Ok(())
    {
      var key := OwnKey(s.pre);
      if key in entries {
        return Err(AlreadyExists);
      }
      entries := entries[key := Stored(s, 1)];
      return Ok(());
    }

    method Read(key: RecordKey) returns (r: Option<Stored>)
      ensures r == if key in entries then Some(entries[key]) else None
    {
      r := if key in entries then Some(entries[key]) else None;
    }

    method Swap(s: UploadState, revision: nat) returns (r: Result<nat, ContextError>)
      modifies this
      ensures entries == Update(old(entries), s, revision)
      ensures r == UpdateReply(old(entries), s, revision)
    {
      var key := OwnKey(s.pre);
      if key !in entries {
        return Err(Expired);
      }
      if entries[key].revision != revision {
        return Err(Conflict);
      }
      entries := entries[key := Stored(s, revision + 1)];
      return Ok(revision + 1);
    }

    /** Others run. A record they leave is the one that was there, moved on by as many revisions as they wrote. */
    method Interfere(others: seq<Other>, key: RecordKey) returns (ghost writes: nat)
      modifies this
      ensures Later(old(entries), entries, key, writes)
      ensures old(Owned(entries, key)) ==> Owned(entries, key)
    {
      writes := 0;
      for i := 0 to |others|
        invariant Later(old(entries), entries, key, writes)
        invariant old(Owned(entries, key)) ==> Owned(entries, key)
      {
        match others[i] {
          case Writes(s) =>
            var k := OwnKey(s.pre);
            if k in entries {
              entries := entries[k := Stored(s, entries[k].revision + 1)];
              if k == key {
                writes := writes + 1;
              }
            }
          case Lapses(k) => entries := entries - {k};
        }
      }
    }
  }

  predicate Later(a: Records, b: Records, key: RecordKey, writes: nat) {
    && (key !in a ==> key !in b)
    && (key in b ==> b[key].revision == a[key].revision + writes && (writes == 0 ==> b[key] == a[key]))
  }

  predicate Owned(rs: Records, key: RecordKey) {
    key in rs ==> OwnKey(rs[key].state.pre) == key
  }

  /** Move an upload to `status`, unless it has already finished; at most three attempts, with any other writes
      before each store call, and any call failing before or after it takes effect. Each answer is what the record
      says when the call returns. `foreign` counts the others' writes: they alone moved the record, but for the
      call's own write, made when it says so or hidden behind a lost reply. */
  method SetStatus(store: MemoryUploadStateStore, key: RecordKey, status: UploadStatus, now: int,
                   others: nat -> seq<Other>, ports: nat -> Port)
    returns (r: Outcome, ghost foreign: nat, ghost own: nat)
    requires Owned(store.entries, key)
    modifies store
    ensures match r
            case Applied(s) =>
              && key in store.entries && store.entries[key].state == s
              && s.status == status && s.updatedAt == now && own == 1
            case AlreadyTerminal(s) =>
              && key in store.entries && store.entries[key].state == s && own == 0
              && (s.status.Accepted? || s.status.Rejected?)
            case RecordExpired => key !in store.entries && own == 0
            case GaveUp => key in store.entries && foreign >= 3 && own == 0
            case StoreFailed => own <= 1 && exists c: nat :: !ports(c).Works?
    ensures old(key !in store.entries) ==> r == RecordExpired || r == StoreFailed
    ensures key in store.entries ==>
              key in old(store.entries)
              && store.entries[key].revision == old(store.entries)[key].revision + foreign + own
  {
    foreign, own := 0, 0;
    ghost var writes: nat;
    for i := 0 to CAS_ATTEMPTS
      invariant Owned(store.entries, key)
      invariant old(key !in store.entries) ==> key !in store.entries
      invariant key in store.entries ==> store.entries[key].revision == old(store.entries)[key].revision + foreign
      invariant foreign >= i && own == 0
      invariant i > 0 ==> key in store.entries
    {
      writes := store.Interfere(others(2 * i), key);
      foreign := foreign + writes;
      if !ports(2 * i).Works? {
        return StoreFailed, foreign, 0;
      }
      var stored := store.Read(key);
      if stored.None? {
        return RecordExpired, foreign, 0;
      }
      var current := stored.value;
      if IsTerminal(current.state.status) {
        return AlreadyTerminal(current.state), foreign, 0;
      }
      var next := WithStatus(current.state, status, now);
      writes := store.Interfere(others(2 * i + 1), key);
      foreign := foreign + writes;
      if !TakesEffect(ports(2 * i + 1)) {
        return StoreFailed, foreign, 0;
      }
      var swapped := store.Swap(next, current.revision);
      if !ports(2 * i + 1).Works? {
        return StoreFailed, foreign, if swapped.Ok? then 1 else 0;
      }
      match swapped {
        case Ok(_) => return Applied(next), foreign, 1;
        case Err(Conflict) =>
        case Err(_) => return RecordExpired, foreign, 0;
      }
    }
    return GaveUp, foreign, 0;
  }
}
