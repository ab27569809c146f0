/** The chat lease: what one operation does to a conversation's lock, as the in-memory bus does it
    in one step. */
module ChatLock {
  import opened Wrappers
  import opened Domain

  datatype LockState = Requested | Running | Committed | Interrupted | Failed

  /** The requested turn a lock carries; never rewritten. */
  datatype Turn = Turn(
    tenantId: Id,
    userId: Id,
    conversationId: Id,
    turnId: Id,
    userMessageId: Id,
    text: string,
    parentMessageId: Option<Id>,
    bearerSubject: Id)

  datatype Stop = Stop(requested: bool, requester: Option<Id>, requestedAt: Option<int>)

  datatype TerminalUpdate = TerminalUpdate(
    state: LockState,
    assistantMessageId: Option<Id>,
    content: Option<string>,
    error: Option<string>)

  datatype Lock = Lock(
    turn: Turn,
    state: LockState,
    workerId: Option<Id>,
    stop: Stop,
    leaseExpiresAt: int,
    assistantMessageId: Option<Id>,
    terminalContent: Option<string>,
    terminalError: Option<string>,
    terminalEventPublished: bool)

  predicate TerminalState(s: LockState) {
    s.Committed? || s.Interrupted? || s.Failed?
  }

  predicate ExpiredAt(l: Lock, now: int) {
    l.leaseExpiresAt <= now
  }

  function RequestedLock(t: Turn, expires: int): Lock {
    Lock(t, Requested, None, Stop(false, None, None), expires, None, None, None, false)
  }

  datatype Op =
    | Acquire(turn: Turn)
    | Claim(turnId: Id, worker: Id)
    | MarkTerminal(turnId: Id, byWorker: Option<Id>, update: TerminalUpdate)
    | MarkPublished(turnId: Id)
    | RequestStop(requester: Id)
    | Renew(turnId: Id, worker: Id)
    | Release(turnId: Id)

  datatype Reply = Done | Holds(lock: Lock) | NoLock | InFlight | BusError | RetriesExhausted

  predicate Success(r: Reply) {
    r.Done? || r.Holds? || r.NoLock?
  }

  /** Clock readings an operation makes: `check` for expiry tests, `stamp` for what it writes, and the lease length. */
  datatype Clock = Clock(check: int, stamp: int, ttl: int)

  function Claimed(l: Lock, worker: Id, k: Clock): Lock {
    l.(state := Running, workerId := Some(worker), leaseExpiresAt := k.stamp + k.ttl)
  }

  function Terminated(l: Lock, u: TerminalUpdate, k: Clock): Lock {
    l.(state := u.state, assistantMessageId := u.assistantMessageId, terminalContent := u.content,
       terminalError := u.error, terminalEventPublished := false, leaseExpiresAt := k.stamp + k.ttl)
  }

  function Stopped(l: Lock, requester: Id, k: Clock): Lock {
    l.(stop := Stop(true, Some(requester), Some(k.stamp)))
  }

  /** One step of the in-memory bus on the lock of one conversation. */
  function Mem(op: Op, cell: Option<Lock>, k: Clock): (Option<Lock>, Reply) {
    match op
    case Acquire(t) =>
      if cell.Some? && !ExpiredAt(cell.value, k.check) then (cell, InFlight)
      else (Some(RequestedLock(t, k.stamp + k.ttl)), Done)
    case Claim(turnId, worker) =>
      if cell.None? then (cell, BusError)
      else
        var l := cell.value;
        if l.turn.turnId != turnId then (cell, if ExpiredAt(l, k.check) then BusError else InFlight)
        else if TerminalState(l.state) then (cell, Holds(l))
        else if ExpiredAt(l, k.check) then (cell, BusError)
        else if l.state.Running? && l.workerId != Some(worker) then (cell, InFlight)
        else (Some(Claimed(l, worker, k)), Holds(Claimed(l, worker, k)))
    case MarkTerminal(turnId, byWorker, u) =>
      if cell.None? || cell.value.turn.turnId != turnId || (byWorker.Some? && cell.value.workerId != byWorker)
      then (cell, InFlight)
      else (Some(Terminated(cell.value, u, k)), Holds(Terminated(cell.value, u, k)))
    case MarkPublished(turnId) =>
      if cell.Some? && cell.value.turn.turnId == turnId && TerminalState(cell.value.state)
      then (Some(cell.value.(terminalEventPublished := true)), Done)
      else (cell, Done)
    case RequestStop(requester) =>
      if cell.None? then (cell, NoLock)
      else if ExpiredAt(cell.value, k.check) then (None, NoLock)
      else (Some(Stopped(cell.value, requester, k)), Holds(Stopped(cell.value, requester, k)))
    case Renew(turnId, worker) =>
      if cell.None? || cell.value.turn.turnId != turnId || cell.value.workerId != Some(worker)
         || ExpiredAt(cell.value, k.check)
      then (cell, InFlight)
      else
        var l := cell.value.(leaseExpiresAt := k.stamp + k.ttl);
        (Some(l), Holds(l))
    case Release(turnId) =>
      (if cell.Some? && cell.value.turn.turnId == turnId then None else cell, Done)
  }

  /** The lock is held by the turn, and its lease has not run out. */
  predicate LiveFor(cell: Option<Lock>, turnId: Id, now: int) {
    cell.Some? && cell.value.turn.turnId == turnId && now < cell.value.leaseExpiresAt
  }

  /** What each operation asks of the lock it finds, what it then writes, leaving everything else of the lock alone, and
      what it answers otherwise, leaving all of it alone. A lease always runs from the stamp for its full length. */
  lemma MemWrites(op: Op, cell: Option<Lock>, k: Clock)
    ensures var (after, r) := Mem(op, cell, k);
            var lease := k.stamp + k.ttl;
            match op
            case Acquire(t) =>
              if cell.None? || cell.value.leaseExpiresAt <= k.check
              then
                && r == Done && after.Some? && var m := after.value;
                && m.turn == t && m.state == Requested && m.workerId == None && m.leaseExpiresAt == lease
                && m.stop == Stop(false, None, None) && m.assistantMessageId == None && m.terminalContent == None
                && m.terminalError == None && !m.terminalEventPublished
              else after == cell && r == InFlight
            case Claim(turnId, worker) =>
              if cell.Some? && cell.value.turn.turnId == turnId && TerminalState(cell.value.state)
              then after == cell && r == Holds(cell.value)
              else if LiveFor(cell, turnId, k.check)
                      && (cell.value.state.Running? ==> cell.value.workerId == Some(worker))
              then
                && after == Some(cell.value.(state := Running, workerId := Some(worker), leaseExpiresAt := lease))
                && r == Holds(after.value)
              else after == cell && !Success(r)
            case MarkTerminal(turnId, byWorker, u) =>
              if cell.Some? && cell.value.turn.turnId == turnId && (byWorker.Some? ==> cell.value.workerId == byWorker)
              then
                && after == Some(cell.value.(
                                 state := u.state, assistantMessageId := u.assistantMessageId,
                                 terminalContent := u.content, terminalError := u.error,
                                 terminalEventPublished := false, leaseExpiresAt := lease))
                && r == Holds(after.value)
              else after == cell && r == InFlight
            case MarkPublished(turnId) =>
              && r == Done
              && if cell.Some? && cell.value.turn.turnId == turnId && TerminalState(cell.value.state)
                 then after == Some(cell.value.(terminalEventPublished := true)) else after == cell
            case RequestStop(requester) =>
              if cell.Some? && k.check < cell.value.leaseExpiresAt
              then
                && after == Some(cell.value.(stop := Stop(true, Some(requester), Some(k.stamp))))
                && r == Holds(after.value)
              else after == None && r == NoLock
            case Renew(turnId, worker) =>
              if LiveFor(cell, turnId, k.check) && cell.value.workerId == Some(worker)
              then after == Some(cell.value.(leaseExpiresAt := lease)) && r == Holds(after.value)
              else after == cell && r == InFlight
            case Release(turnId) =>
              && r == Done
              && after == if cell.Some? && cell.value.turn.turnId == turnId then None else cell
  {
  }

  /** The in-memory bus: one mutex-held map of locks. */
  class InMemoryChatBus {
    var locks: map<Key, Lock>

    constructor ()
      ensures locks == map[]
    {
      locks := map[];
    }

    ghost function At(key: Key): Option<Lock>
      reads this
    {
      if key in locks then Some(locks[key]) else None
    }

    twostate predicate Did(key: Key, op: Op, k: Clock, r: Reply)
      reads this
    {
      && (At(key), r) == Mem(op, old(At(key)), k)
      && forall other :: other != key ==> At(other) == old(At(other))
    }

    method AcquireLock(key: Key, t: Turn, k: Clock) returns (r: Reply)
      modifies this
      ensures Did(key, Acquire(t), k, r)
    {
      if key in locks && !ExpiredAt(locks[key], k.check) {
        return InFlight;
      }
      locks := locks[key := RequestedLock(t, k.stamp + k.ttl)];
      return Done;
    }

    method ClaimLock(key: Key, turnId: Id, worker: Id, k: Clock) returns (r: Reply)
      modifies this
      ensures Did(key, Claim(turnId, worker), k, r)
    {
      if key !in locks {
        return BusError;
      }
      var l := locks[key];
      if l.turn.turnId == turnId {
        if TerminalState(l.state) {
          return Holds(l);
        }
        if ExpiredAt(l, k.check) {
          return BusError;
        }
        if l.state == Running && l.workerId != Some(worker) {
          return InFlight;
        }
        l := l.(state := Running);
        l := l.(workerId := Some(worker));
        l := l.(leaseExpiresAt := k.stamp + k.ttl);
        locks := locks[key := l];
        return Holds(l);
      }
      return if !ExpiredAt(l, k.check) then InFlight else BusError;
    }

    method MarkLockTerminal(key: Key, turnId: Id, byWorker: Option<Id>, u: TerminalUpdate, k: Clock) returns (r: Reply)
      modifies this
      ensures Did(key, MarkTerminal(turnId, byWorker, u), k, r)
    {
      if key !in locks || locks[key].turn.turnId != turnId {
        return InFlight;
      }
      var l := locks[key];
      if byWorker.Some? && l.workerId != byWorker {
        return InFlight;
      }
      l := l.(state := u.state, assistantMessageId := u.assistantMessageId);
      l := l.(terminalContent := u.content, terminalError := u.error, terminalEventPublished := false);
      l := l.(leaseExpiresAt := k.stamp + k.ttl);
      locks := locks[key := l];
      return Holds(l);
    }

    method MarkTerminalEventPublished(key: Key, turnId: Id, k: Clock) returns (r: Reply)
      modifies this
      ensures Did(key, MarkPublished(turnId), k, r)
    {
      if key in locks && locks[key].turn.turnId == turnId && TerminalState(locks[key].state) {
        locks := locks[key := locks[key].(terminalEventPublished := true)];
      }
      return Done;
    }

    method RequestLockStop(key: Key, requester: Id, k: Clock) returns (r: Reply)
      modifies this
      ensures Did(key, RequestStop(requester), k, r)
    {
      if key !in locks {
        return NoLock;
      }
      if ExpiredAt(locks[key], k.check) {
        locks := locks - {key};
        return NoLock;
      }
      var l := locks[key].(stop := Stop(true, Some(requester), Some(k.stamp)));
      locks := locks[key := l];
      return Holds(l);
    }

    method RenewLock(key: Key, turnId: Id, worker: Id, k: Clock) returns (r: Reply)
      modifies this
      ensures Did(key, Renew(turnId, worker), k, r)
    {
      if key !in locks {
        return InFlight;
      }
      var l := locks[key];
      if l.turn.turnId != turnId || l.workerId != Some(worker) || ExpiredAt(l, k.check) {
        return InFlight;
      }
      l := l.(leaseExpiresAt := k.stamp + k.ttl);
      locks := locks[key := l];
      return Holds(l);
    }

    method ReleaseLock(key: Key, turnId: Id, k: Clock) returns (r: Reply)
      modifies this
      ensures Did(key, Release(turnId), k, r)
    {
      if key in locks && locks[key].turn.turnId == turnId {
        locks := locks - {key};
      }
      return Done;
    }
  }

  /** `<tenant>/<conversation>`. */
  datatype Key = Key(tenant: Id, conversation: Id)
}

/** The same operations as read-modify-swap loops over a revisioned key-value entry, any number of them at once. All
    of them address one key, so the machine holds the entry of one conversation. */
module KvLock {
  import opened Wrappers
  import opened Domain
  import opened ChatLock

  const SWAP_ATTEMPTS := 8

  /** A missing key and a tombstone behave alike. */
  datatype Cell = Empty | Put(lock: Lock, revision: nat)

  function Abs(c: Cell): Option<Lock> {
    if c.Put? then Some(c.lock) else None
  }

  datatype Pc =
    | Reading(attempt: nat)
    | Swapping(attempt: nat, read: Cell, k: Clock)
    | Purging(read: Cell, k: Clock)
    | Creating
    | Returned(reply: Reply)

  datatype Call = Call(op: Op, pc: Pc)

  /** Where a read leads. */
  function AfterRead(op: Op, a: nat, cell: Cell, k: Clock): Pc {
    if cell.Empty? then
      match op
      case Acquire(_) => Creating
      case Claim(_, _) => Returned(BusError)
      case MarkTerminal(_, _, _) => Returned(InFlight)
      case MarkPublished(_) => Returned(Done)
      case RequestStop(_) => Returned(NoLock)
      case Renew(_, _) => Returned(InFlight)
      case Release(_) => Returned(Done)
    else
      var l := cell.lock;
      match op
      case Acquire(_) => if ExpiredAt(l, k.check) then Purging(cell, k) else Returned(InFlight)
      case Claim(turnId, worker) =>
        if l.turn.turnId == turnId && TerminalState(l.state) then Returned(Holds(l))
        else if l.turn.turnId != turnId && !ExpiredAt(l, k.check) then Returned(InFlight)
        else if l.turn.turnId == turnId && l.state.Running? && l.workerId != Some(worker) && !ExpiredAt(l, k.check)
        then Returned(InFlight)
        else if l.turn.turnId != turnId then Returned(InFlight)
        else if ExpiredAt(l, k.check) then Returned(BusError)
        else Swapping(a, cell, k)
      case MarkTerminal(turnId, byWorker, _) =>
        if l.turn.turnId != turnId || (byWorker.Some? && l.workerId != byWorker) then Returned(InFlight)
        else Swapping(a, cell, k)
      case MarkPublished(turnId) =>
        if l.turn.turnId != turnId || !TerminalState(l.state) then Returned(Done) else Swapping(a, cell, k)
      case RequestStop(_) => if ExpiredAt(l, k.check) then Purging(cell, k) else Swapping(a, cell, k)
      case Renew(turnId, worker) =>
        if l.turn.turnId != turnId || l.workerId != Some(worker) || ExpiredAt(l, k.check) then Returned(InFlight)
        else Swapping(a, cell, k)
      case Release(turnId) => if l.turn.turnId != turnId then Returned(Done) else Purging(cell, k)
  }

  /** What a swap writes over the lock it read. */
  function Written(op: Op, l: Lock, k: Clock): Lock {
    match op
    case Claim(_, worker) => Claimed(l, worker, k)
    case MarkTerminal(_, _, u) => Terminated(l, u, k)
    case MarkPublished(_) => l.(terminalEventPublished := true)
    case RequestStop(requester) => Stopped(l, requester, k)
    case Renew(_, _) => l.(leaseExpiresAt := k.stamp + k.ttl)
    case Acquire(_) => l
    case Release(_) => l
  }

  predicate SameRevision(cell: Cell, read: Cell) {
    cell.Put? && read.Put? && cell.revision == read.revision
  }

  function NextCell(cell: Cell, revision: nat, call: Call, k: Clock, port: Port): Cell {
    if !TakesEffect(port) then cell
    else
      match call.pc
      case Swapping(_, read, k0) =>
        if SameRevision(cell, read) then Put(Written(call.op, read.lock, k0), revision) else cell
      case Purging(read, _) => if SameRevision(cell, read) then Empty else cell
      case Creating =>
        if cell.Empty? && call.op.Acquire? then Put(RequestedLock(call.op.turn, k.stamp + k.ttl), revision) else cell
      case _ => cell
  }

  function SwapReply(op: Op, l: Lock): Reply {
    if op.MarkPublished? then Done else Holds(l)
  }

  function NextPc(cell: Cell, call: Call, k: Clock, port: Port): Pc {
    match call.pc
    case Reading(a) =>
      // A release reports nothing: a failed read ends it like any other outcome.
      if port.Works? then AfterRead(call.op, a, cell, k)
      else if call.op.Release? then Returned(Done)
      else Returned(BusError)
    case Swapping(a, read, k0) =>
      if !port.Works? || read.Empty? then Returned(BusError)
      else if SameRevision(cell, read) then Returned(SwapReply(call.op, Written(call.op, read.lock, k0)))
      else if a + 1 < SWAP_ATTEMPTS then Reading(a + 1)
      else Returned(RetriesExhausted)
    case Purging(read, _) =>
      // A lost purge fails an acquire; a stop or a release ignores it.
      (match call.op
       case RequestStop(_) => Returned(NoLock)
       case Release(_) => Returned(Done)
       case _ => if port.Works? && SameRevision(cell, read) then Creating else Returned(BusError))
    case Creating =>
      if !port.Works? then Returned(BusError) else if cell.Empty? then Returned(Done) else Returned(InFlight)
    case Returned(_) => call.pc
  }

  // ------------------------------------------------------------------ all interleavings

  datatype World = World(cell: Cell, revision: nat, calls: map<nat, Call>)

  datatype Action =
    | Begins(pid: nat, op: Op)
    | Steps(pid: nat, k: Clock, port: Port)
    | AgesOut

  const EMPTY := World(Empty, 1, map[])

  function Next(w: World, a: Action): World {
    match a
    case Begins(pid, op) => if pid in w.calls then w else w.(calls := w.calls[pid := Call(op, Reading(0))])
    case Steps(pid, k, port) =>
      if pid !in w.calls then w
      else
        var c := w.calls[pid];
        World(NextCell(w.cell, w.revision, c, k, port), w.revision + 1,
              w.calls[pid := c.(pc := NextPc(w.cell, c, k, port))])
    case AgesOut => w.(cell := Empty)
  }

  function Run(acts: seq<Action>): World {
    if acts == [] then EMPTY else Next(Run(acts[..|acts| - 1]), acts[|acts| - 1])
  }

  /** Callers pass only terminal states to the terminal mark. */
  predicate LegalOp(op: Op) {
    op.MarkTerminal? ==> TerminalState(op.update.state)
  }

  predicate LegalRun(acts: seq<Action>) {
    forall a <- acts :: a.Begins? ==> LegalOp(a.op)
  }

  /** A lock nobody claimed has no worker. */
  predicate LockOk(l: Lock) {
    l.state.Requested? ==> l.workerId.None?
  }

  /** A revision stands for one written value. */
  predicate ReadOk(w: World, read: Cell) {
    && read.Put? && read.revision < w.revision && LockOk(read.lock)
    && (SameRevision(w.cell, read) ==> w.cell == read)
  }

  predicate CallOk(w: World, c: Call) {
    && LegalOp(c.op)
    && match c.pc
       case Swapping(_, read, k) => ReadOk(w, read) && AfterRead(c.op, c.pc.attempt, read, k) == c.pc
       case Purging(read, k) => ReadOk(w, read) && AfterRead(c.op, 0, read, k) == c.pc
       case Creating => c.op.Acquire?
       case _ => true
  }

  predicate Inv(w: World) {
    && (w.cell.Put? ==> w.cell.revision < w.revision && LockOk(w.cell.lock))
    && forall p :: p in w.calls ==> CallOk(w, w.calls[p])
  }

  // ------------------------------------------------------------------ refinement

  /** The clock readings an answer goes with: those of the read it acts on, or its own when it acts on none. */
  function ClockOf(c: Call, k: Clock): Clock {
    if c.pc.Swapping? || c.pc.Purging? then c.pc.k else k
  }

  /** A removal that did not happen and is not reported: a release whose read failed, or a stop or a release whose purge
      did, on a lock that the in-memory step would change. */
  predicate LostRemoval(cell: Cell, c: Call, port: Port) {
    && cell.Put?
    && (|| (c.pc.Reading? && !port.Works?)
        || (c.pc.Purging? && !(SameRevision(cell, c.pc.read) && TakesEffect(port))))
    && (|| (c.op.Release? && cell.lock.turn.turnId == c.op.turnId)
        || (c.op.RequestStop? && c.pc.Purging?))
  }

  /** Every step that changes the entry, but for ageing out, is the in-memory step of its operation, taken on the entry
      as it is at that moment; or an acquire's purge of a lock it read expired and nobody wrote since. A step that
      changes nothing lost its race and tries again or is refused, purged nothing for a caller that does not care, or
      is a read. */
  predicate Refines(cell: Cell, next: Cell, c: Call, pc: Pc, k: Clock, port: Port) {
    var step := Mem(c.op, Abs(cell), ClockOf(c, k));
    match c.pc
    case Swapping(_, read, _) =>
      if next == cell
      then
        && (!SameRevision(cell, read) || !TakesEffect(port))
        && pc == if !port.Works? then Returned(BusError)
                 else if c.pc.attempt < 7 then Reading(c.pc.attempt + 1) else Returned(RetriesExhausted)
      else Abs(next) == step.0 && (port.Works? ==> pc == Returned(step.1))
    case Purging(read, k0) =>
      if c.op.Acquire? then
        if next == cell then pc == Returned(BusError)
        else next.Empty? && cell == read && ExpiredAt(read.lock, k0.check)
      else if next == cell then LostRemoval(cell, c, port) || (Abs(next) == step.0 && pc == Returned(step.1))
      else Abs(next) == step.0 && pc == Returned(step.1)
    case Creating =>
      if next == cell
      then (!cell.Empty? || !TakesEffect(port)) && pc == Returned(if port.Works? then InFlight else BusError)
      else Abs(next) == step.0 && (port.Works? ==> pc == Returned(step.1))
    case _ => next == cell
  }

  lemma StepRefines(w: World, c: Call, k: Clock, port: Port)
    requires CallOk(w, c) && (w.cell.Put? ==> w.cell.revision < w.revision)
    ensures Refines(w.cell, NextCell(w.cell, w.revision, c, k, port), c, NextPc(w.cell, c, k, port), k, port)
  {
  }

  /** A read that answers with success without writing answers as the in-memory step would, and that step would not
      write either. */
  lemma ReadRefines(op: Op, a: nat, cell: Cell, k: Clock)
    requires AfterRead(op, a, cell, k).Returned? && Success(AfterRead(op, a, cell, k).reply)
    ensures Mem(op, Abs(cell), k) == (Abs(cell), AfterRead(op, a, cell, k).reply)
  {
  }

  /** The one refusal that differs on a read: a claim of another turn's expired lock is told "in flight", where the
      in-memory step answers with an error. Neither writes. */
  lemma RefusalsAgree(op: Op, a: nat, cell: Cell, k: Clock)
    requires AfterRead(op, a, cell, k).Returned? && !Success(AfterRead(op, a, cell, k).reply)
    ensures Mem(op, Abs(cell), k).0 == Abs(cell) && !Success(Mem(op, Abs(cell), k).1)
    ensures Mem(op, Abs(cell), k).1 == AfterRead(op, a, cell, k).reply
            <==> !(op.Claim? && cell.Put? && cell.lock.turn.turnId != op.turnId && ExpiredAt(cell.lock, k.check))
  {
  }

  lemma StepInv(w: World, a: Action)
    requires Inv(w) && (a.Begins? ==> LegalOp(a.op))
    ensures Inv(Next(w, a))
  {
    if a.Steps? && a.pid in w.calls {
      assert CallOk(w, w.calls[a.pid]);
      CellOk(w, w.calls[a.pid], a.k, a.port);
      forall p | p in Next(w, a).calls
        ensures CallOk(Next(w, a), Next(w, a).calls[p])
      {
        if p != a.pid {
          OtherCallOk(w, a, w.calls[p]);
        } else {
          OwnCallOk(w, a);
        }
      }
    }
  }

  lemma CellOk(w: World, c: Call, k: Clock, port: Port)
    requires CallOk(w, c) && (w.cell.Put? ==> w.cell.revision < w.revision && LockOk(w.cell.lock))
    ensures var n := NextCell(w.cell, w.revision, c, k, port);
            n.Put? ==> n.revision <= w.revision && LockOk(n.lock) && (n == w.cell || n.revision == w.revision)
  {
  }

  lemma OtherCallOk(w: World, a: Action, c: Call)
    requires Inv(w) && a.Steps? && a.pid in w.calls && CallOk(w, c)
    ensures CallOk(Next(w, a), c)
  {
    CellOk(w, w.calls[a.pid], a.k, a.port);
  }

  lemma OwnCallOk(w: World, a: Action)
    requires Inv(w) && a.Steps? && a.pid in w.calls
    ensures CallOk(Next(w, a), Next(w, a).calls[a.pid])
  {
    assert CallOk(w, w.calls[a.pid]);
  }

  lemma {:induction false} RunInv(acts: seq<Action>)
    requires LegalRun(acts)
    ensures Inv(Run(acts))
  {
    if acts != [] {
      var n := |acts| - 1;
      RunInv(acts[..n]);
      assert acts[n] in acts;
      StepInv(Run(acts[..n]), acts[n]);
    }
  }

  /** Theorem: over every interleaving, each step of each call refines the in-memory bus or is one of the steps named
      above. */
  lemma EveryStepRefines(acts: seq<Action>, pid: nat, k: Clock, port: Port)
    requires LegalRun(acts) && pid in Run(acts).calls
    ensures var w, n := Run(acts), Next(Run(acts), Steps(pid, k, port));
            Refines(w.cell, n.cell, w.calls[pid], n.calls[pid].pc, k, port)
  {
    RunInv(acts);
    assert CallOk(Run(acts), Run(acts).calls[pid]);
    StepRefines(Run(acts), Run(acts).calls[pid], k, port);
  }

  /** A step that answers its call, with success. */
  predicate Succeeds(c: Call, pc: Pc) {
    !c.pc.Returned? && pc.Returned? && Success(pc.reply)
  }

  lemma SuccessStep(w: World, c: Call, k: Clock, port: Port)
    requires CallOk(w, c) && (w.cell.Put? ==> w.cell.revision < w.revision)
    ensures var n, pc := NextCell(w.cell, w.revision, c, k, port), NextPc(w.cell, c, k, port);
            Succeeds(c, pc) ==>
              (Mem(c.op, Abs(w.cell), ClockOf(c, k)) == (Abs(n), pc.reply) <==> !LostRemoval(w.cell, c, port))
  {
    if c.pc.Reading? && port.Works? && Succeeds(c, NextPc(w.cell, c, k, port)) {
      ReadRefines(c.op, c.pc.attempt, w.cell, k);
    }
  }

  /** Theorem: over every interleaving, an operation that succeeds has done exactly the in-memory step, with its
      effect and its answer, unless it is a stop or a release that lost its removal of a lock it should have changed. */
  lemma SuccessIsTheInMemoryStep(acts: seq<Action>, pid: nat, k: Clock, port: Port)
    requires LegalRun(acts) && pid in Run(acts).calls
    ensures var w, n := Run(acts), Next(Run(acts), Steps(pid, k, port));
            var c, pc := w.calls[pid], n.calls[pid].pc;
            Succeeds(c, pc) ==>
              (Mem(c.op, Abs(w.cell), ClockOf(c, k)) == (Abs(n.cell), pc.reply) <==> !LostRemoval(w.cell, c, port))
  {
    RunInv(acts);
    assert CallOk(Run(acts), Run(acts).calls[pid]);
    SuccessStep(Run(acts), Run(acts).calls[pid], k, port);
  }

  // ------------------------------------------------------------------ runs in which a removal is lost

  lemma Push(acts: seq<Action>, a: Action)
    ensures Run(acts + [a]) == Next(Run(acts), a)
  {
    assert (acts + [a])[..|acts|] == acts;
  }

  /** A turn takes the lock. */
  function Taking(t: Turn, k: Clock): seq<Action> {
    [Begins(0, Acquire(t))] + [Steps(0, k, Works)] + [Steps(0, k, Works)]
  }

  lemma Takes(t: Turn, k: Clock)
    ensures Run(Taking(t, k))
            == World(Put(RequestedLock(t, k.stamp + k.ttl), 2), 3, map[0 := Call(Acquire(t), Returned(Done))])
  {
    var b := Begins(0, Acquire(t));
    assert [] + [b] == [b];
    Push([], b);
    Push([b], Steps(0, k, Works));
    Push([b] + [Steps(0, k, Works)], Steps(0, k, Works));
  }

  /** Its release cannot read the lock. */
  function UnreadRelease(t: Turn, k: Clock): seq<Action> {
    Taking(t, k) + [Begins(1, Release(t.turnId))] + [Steps(1, k, Down)]
  }

  /** A release whose read fails ends as "done" with its own turn's lock still held. */
  lemma UnreadReleaseIsLost(t: Turn, k: Clock)
    ensures LegalRun(UnreadRelease(t, k))
    ensures var w := Run(UnreadRelease(t, k));
            && 1 in w.calls && w.calls[1] == Call(Release(t.turnId), Returned(Done))
            && w.cell.Put? && w.cell.lock.turn == t
  {
    Takes(t, k);
    Push(Taking(t, k), Begins(1, Release(t.turnId)));
    Push(Taking(t, k) + [Begins(1, Release(t.turnId))], Steps(1, k, Down));
  }

  /** Its release reads the lock; before it purges, a stop is written. */
  function LostRelease(t: Turn, requester: Id, k: Clock): seq<Action> {
    Taking(t, k) + [Begins(1, Release(t.turnId))] + [Steps(1, k, Works)]
    + [Begins(2, RequestStop(requester))] + [Steps(2, k, Works)] + [Steps(2, k, Works)] + [Steps(1, k, Works)]
  }

  /** Without any failure, a release can answer "done" with its own turn's lock still held. */
  lemma ReleaseCanBeLost(t: Turn, requester: Id, k: Clock)
    requires k.check < k.stamp + k.ttl
    ensures LegalRun(LostRelease(t, requester, k))
    ensures var w := Run(LostRelease(t, requester, k));
            && 1 in w.calls && w.calls[1] == Call(Release(t.turnId), Returned(Done))
            && w.cell.Put? && w.cell.lock.turn == t && !ExpiredAt(w.cell.lock, k.check)
  {
    var a0 := Taking(t, k);
    var a1 := a0 + [Begins(1, Release(t.turnId))];
    var a2 := a1 + [Steps(1, k, Works)];
    var a3 := a2 + [Begins(2, RequestStop(requester))];
    var a4 := a3 + [Steps(2, k, Works)];
    var a5 := a4 + [Steps(2, k, Works)];
    Takes(t, k);
    Push(a0, Begins(1, Release(t.turnId)));
    Push(a1, Steps(1, k, Works));
    ReadsForRelease(t, k, Run(a0), Run(a2));
    Push(a2, Begins(2, RequestStop(requester)));
    Push(a3, Steps(2, k, Works));
    Push(a4, Steps(2, k, Works));
    StopsBetween(t, requester, k, Run(a2), Run(a5));
    Push(a5, Steps(1, k, Works));
  }

  lemma ReadsForRelease(t: Turn, k: Clock, w: World, n: World)
    requires w.cell == Put(RequestedLock(t, k.stamp + k.ttl), 2) && w.calls.Keys == {0}
    requires n == Next(Next(w, Begins(1, Release(t.turnId))), Steps(1, k, Works))
    ensures n.cell == w.cell && n.revision == w.revision + 1 && n.calls.Keys == {0, 1}
    ensures n.calls[1] == Call(Release(t.turnId), Purging(w.cell, k))
  {
  }

  lemma StopsBetween(t: Turn, requester: Id, k: Clock, w: World, n: World)
    requires w.cell == Put(RequestedLock(t, k.stamp + k.ttl), 2) && w.calls.Keys == {0, 1} && w.revision > 2
    requires k.check < k.stamp + k.ttl
    requires n == Next(Next(Next(w, Begins(2, RequestStop(requester))), Steps(2, k, Works)), Steps(2, k, Works))
    ensures n.cell == Put(Stopped(w.cell.lock, requester, k), w.revision + 1) && 1 in n.calls
    ensures n.calls[1] == w.calls[1]
  {
    var m := Next(Next(w, Begins(2, RequestStop(requester))), Steps(2, k, Works));
    assert m.calls[2] == Call(RequestStop(requester), Swapping(0, w.cell, k)) && m.cell == w.cell;
  }

  /** A stop reads an expired lock; before it purges, another turn purges it and takes the lock. */
  function LostStop(t: Turn, u: Turn, requester: Id, k: Clock, late: Clock): seq<Action> {
    Taking(t, k) + [Begins(1, RequestStop(requester))] + [Steps(1, late, Works)]
    + [Begins(2, Acquire(u))] + [Steps(2, late, Works)] + [Steps(2, late, Works)] + [Steps(2, late, Works)]
    + [Steps(1, late, Works)]
  }

  /** Without any failure, a stop can answer "no lock" while a live lock is held and not asked to stop. */
  lemma StopCanBeLost(t: Turn, u: Turn, requester: Id, k: Clock, late: Clock)
    requires k.stamp + k.ttl <= late.check < late.stamp + late.ttl
    ensures LegalRun(LostStop(t, u, requester, k, late))
    ensures var w := Run(LostStop(t, u, requester, k, late));
            && 1 in w.calls && w.calls[1] == Call(RequestStop(requester), Returned(NoLock))
            && w.cell.Put? && w.cell.lock == RequestedLock(u, late.stamp + late.ttl)
            && !ExpiredAt(w.cell.lock, late.check) && !w.cell.lock.stop.requested
  {
    var a0 := Taking(t, k);
    var a1 := a0 + [Begins(1, RequestStop(requester))];
    var a2 := a1 + [Steps(1, late, Works)];
    var a3 := a2 + [Begins(2, Acquire(u))];
    var a4 := a3 + [Steps(2, late, Works)];
    var a5 := a4 + [Steps(2, late, Works)];
    var a6 := a5 + [Steps(2, late, Works)];
    Takes(t, k);
    Push(a0, Begins(1, RequestStop(requester)));
    Push(a1, Steps(1, late, Works));
    assert Run(a2).calls[1] == Call(RequestStop(requester), Purging(Run(a0).cell, late));
    assert Run(a2).cell == Run(a0).cell;
    Push(a2, Begins(2, Acquire(u)));
    Push(a3, Steps(2, late, Works));
    Push(a4, Steps(2, late, Works));
    Push(a5, Steps(2, late, Works));
    TakesExpired(u, late, Run(a2), Run(a4), Run(a6));
    Push(a6, Steps(1, late, Works));
  }

  lemma TakesExpired(u: Turn, late: Clock, w: World, m: World, n: World)
    requires w.cell.Put? && ExpiredAt(w.cell.lock, late.check) && w.calls.Keys == {0, 1}
    requires m == Next(Next(w, Begins(2, Acquire(u))), Steps(2, late, Works))
    requires n == Next(Next(m, Steps(2, late, Works)), Steps(2, late, Works))
    ensures n.cell == Put(RequestedLock(u, late.stamp + late.ttl), w.revision + 2)
    ensures 1 in n.calls && n.calls[1] == w.calls[1]
  {
    assert m.calls[2] == Call(Acquire(u), Purging(w.cell, late)) && m.cell == w.cell && m.revision == w.revision + 1;
    var p := Next(m, Steps(2, late, Works));
    assert p.cell.Empty? && p.calls[2] == Call(Acquire(u), Creating);
  }

  // ------------------------------------------------------------------ what a lock keeps while it lives

  /** The turn never changes, a stop request is never lost, a worker once set never changes. */
  predicate Kept(l: Lock, m: Lock) {
    && m.turn == l.turn
    && (l.stop.requested ==> m.stop.requested)
    && (l.workerId.Some? ==> m.workerId == l.workerId)
  }

  /** Why a lock went away. */
  predicate RemovedBy(w: World, a: Action)
    requires w.cell.Put?
  {
    || a.AgesOut?
    || (a.Steps? && a.pid in w.calls
        && var c := w.calls[a.pid];
           c.pc.Purging? && c.pc.read == w.cell
           && if c.op.Release? then w.cell.lock.turn.turnId == c.op.turnId
              else ExpiredAt(w.cell.lock, c.pc.k.check))
  }

  lemma StepKeeps(w: World, a: Action)
    requires Inv(w) && w.cell.Put?
    ensures var n := Next(w, a).cell;
            if n.Put? then Kept(w.cell.lock, n.lock) else RemovedBy(w, a)
  {
    if a.Steps? && a.pid in w.calls {
      var c := w.calls[a.pid];
      assert CallOk(w, c);
      SwapKeeps(w, c, a.k, a.port);
    }
  }

  lemma SwapKeeps(w: World, c: Call, k: Clock, port: Port)
    requires CallOk(w, c) && w.cell.Put? && w.cell.revision < w.revision
    ensures var n := NextCell(w.cell, w.revision, c, k, port);
            if n.Put? then Kept(w.cell.lock, n.lock)
            else c.pc.Purging? && c.pc.read == w.cell
                 && if c.op.Release? then w.cell.lock.turn.turnId == c.op.turnId
                    else ExpiredAt(w.cell.lock, c.pc.k.check)
  {
  }

  /** Some action of `more` removed a lock, for one of the three reasons. */
  ghost predicate RemovedDuring(acts: seq<Action>, more: seq<Action>) {
    exists i :: 0 <= i < |more| && Run(acts + more[..i]).cell.Put? && Run(acts + more[..i + 1]).cell.Empty?
                && RemovedBy(Run(acts + more[..i]), more[i])
  }

  /** Theorem: from any reachable lock to any later one, either it is the same lock, still holding its turn, any stop
      request and its worker, or in between a lock was released by its own turn, aged out, or was purged by a call
      that read it expired with no write since. */
  lemma {:induction false} LockIsKeptOrRemoved(acts: seq<Action>, more: seq<Action>)
    requires LegalRun(acts + more) && Run(acts).cell.Put?
    ensures var b := Run(acts + more).cell;
            (b.Put? && Kept(Run(acts).cell.lock, b.lock)) || RemovedDuring(acts, more)
  {
    if more == [] {
      assert acts + more == acts;
    } else {
      var n := |more| - 1;
      var init := more[..n];
      assert (acts + more)[..|acts + more| - 1] == acts + init && (acts + more)[|acts + more| - 1] == more[n];
      assert forall a <- acts + init :: a in acts + more;
      LockIsKeptOrRemoved(acts, init);
      RunInv(acts + init);
      var w := Run(acts + init);
      if RemovedDuring(acts, init) {
        Longer(acts, init, more);
      } else {
        StepKeeps(w, more[n]);
        if Run(acts + more).cell.Empty? {
          assert more[..n + 1] == more;
          assert RemovedDuring(acts, more);
        }
      }
    }
  }

  lemma Longer(acts: seq<Action>, init: seq<Action>, more: seq<Action>)
    requires RemovedDuring(acts, init) && init <= more
    ensures RemovedDuring(acts, more)
  {
    var i :| 0 <= i < |init| && Run(acts + init[..i]).cell.Put? && Run(acts + init[..i + 1]).cell.Empty?
             && RemovedBy(Run(acts + init[..i]), init[i]);
    assert more[..i] == init[..i] && more[..i + 1] == init[..i + 1] && more[i] == init[i];
  }

  // ------------------------------------------------------------------ what a lease protects

  /** Operations that start a lease. */
  predicate Leases(op: Op) {
    op.Acquire? || op.Claim? || op.MarkTerminal? || op.Renew?
  }

  /** Until `end`: no clock reads it, and leases started meanwhile do not end sooner. */
  predicate ClocksBefore(more: seq<Action>, end: int) {
    forall a <- more :: a.Steps? ==> a.k.check < end <= a.k.stamp + a.k.ttl
  }

  /** Nobody is about to shorten the lease, or to purge the lock as expired. */
  predicate Respects(cell: Cell, c: Call, end: int) {
    match c.pc
    case Swapping(_, read, k) => SameRevision(cell, read) ==> end <= k.stamp + k.ttl
    case Purging(read, _) => SameRevision(cell, read) ==> c.op.Release?
    case _ => true
  }

  predicate Protected(w: World, end: int) {
    && w.cell.Put? && w.cell.lock.leaseExpiresAt >= end
    && forall p :: p in w.calls ==> Respects(w.cell, w.calls[p], end)
  }

  /** The lock was given up: by a release of its own turn, or by ageing out. */
  predicate HandedBack(w: World, a: Action)
    requires w.cell.Put?
  {
    || a.AgesOut?
    || (a.Steps? && a.pid in w.calls && w.calls[a.pid].op.Release? && w.calls[a.pid].pc.Purging?
        && w.cell.lock.turn.turnId == w.calls[a.pid].op.turnId)
  }

  /** A write leaves a lock that no other call has read. */
  lemma WriteProtects(w: World, pid: nat, k: Clock, port: Port, end: int, n: World)
    requires Inv(w) && pid in w.calls && n == Next(w, Steps(pid, k, port))
    requires n.cell.Put? && n.cell != w.cell && n.cell.lock.leaseExpiresAt >= end
    ensures Protected(n, end)
  {
    forall p | p in n.calls
      ensures Respects(n.cell, n.calls[p], end)
    {
      assert CallOk(w, w.calls[p]);
    }
  }

  lemma OwnStepRespects(w: World, pid: nat, k: Clock, port: Port, end: int, n: World)
    requires Inv(w) && Protected(w, end) && pid in w.calls && k.check < end <= k.stamp + k.ttl
    requires n == Next(w, Steps(pid, k, port)) && n.cell == w.cell
    ensures Respects(n.cell, n.calls[pid], end)
  {
    assert CallOk(w, w.calls[pid]) && Respects(w.cell, w.calls[pid], end);
  }

  lemma WrittenLeases(w: World, c: Call, k: Clock, port: Port, end: int)
    requires CallOk(w, c) && w.cell.Put? && w.cell.lock.leaseExpiresAt >= end && Respects(w.cell, c, end)
    requires w.cell.revision < w.revision
    ensures var n := NextCell(w.cell, w.revision, c, k, port);
            if n.Put? then n.lock.leaseExpiresAt >= end
            else c.pc.Purging? && c.op.Release? && w.cell.lock.turn.turnId == c.op.turnId
  {
  }

  lemma StepProtects(w: World, a: Action, end: int, n: World)
    requires Inv(w) && Protected(w, end) && n == Next(w, a)
    requires a.Steps? ==> a.k.check < end <= a.k.stamp + a.k.ttl
    ensures if n.cell.Put? then Protected(n, end) && Kept(w.cell.lock, n.cell.lock) else HandedBack(w, a)
  {
    StepKeeps(w, a);
    if a.Steps? && a.pid in w.calls {
      var c := w.calls[a.pid];
      assert CallOk(w, c) && Respects(w.cell, c, end);
      WrittenLeases(w, c, a.k, a.port, end);
      if n.cell == w.cell {
        OwnStepRespects(w, a.pid, a.k, a.port, end, n);
        forall p | p in n.calls && p != a.pid
          ensures Respects(n.cell, n.calls[p], end)
        {
          assert Respects(w.cell, w.calls[p], end);
        }
      } else if n.cell.Put? {
        WriteProtects(w, a.pid, a.k, a.port, end, n);
      }
    }
  }

  ghost predicate HandedBackDuring(acts: seq<Action>, more: seq<Action>) {
    exists i :: 0 <= i < |more| && HandedBackAt(acts, more, i)
  }

  ghost predicate HandedBackAt(acts: seq<Action>, more: seq<Action>, i: nat)
    requires i < |more|
  {
    Run(acts + more[..i]).cell.Put? && HandedBack(Run(acts + more[..i]), more[i])
  }

  lemma {:induction false} RunProtects(acts: seq<Action>, more: seq<Action>, end: int)
    requires LegalRun(acts + more) && Protected(Run(acts), end) && ClocksBefore(more, end)
    ensures var a, b := Run(acts), Run(acts + more);
            (Protected(b, end) && Kept(a.cell.lock, b.cell.lock)) || HandedBackDuring(acts, more)
  {
    if more == [] {
      assert acts + more == acts;
    } else {
      var n := |more| - 1;
      var init := more[..n];
      assert (acts + more)[..|acts + more| - 1] == acts + init && (acts + more)[|acts + more| - 1] == more[n];
      assert forall a <- acts + init :: a in acts + more;
      assert forall a <- init :: a in more;
      RunProtects(acts, init, end);
      RunInv(acts + init);
      assert more[n] in more;
      if HandedBackDuring(acts, init) {
        var i :| 0 <= i < |init| && HandedBackAt(acts, init, i);
        assert more[..i] == init[..i] && HandedBackAt(acts, more, i);
      } else {
        StepProtects(Run(acts + init), more[n], end, Run(acts + more));
        if Run(acts + more).cell.Empty? {
          assert HandedBackAt(acts, more, n);
        }
      }
    }
  }

  /** Theorem: a successful acquire, claim, terminal mark or renewal that writes starts a lease of its full length;
      and over every interleaving, until that lease runs out, no other turn gets the lock, no stop request is lost
      and no worker is replaced, unless the lock's own turn releases it or the entry ages out. */
  lemma LeaseProtects(acts: seq<Action>, pid: nat, k: Clock, port: Port, more: seq<Action>)
    requires pid in Run(acts).calls && Leases(Run(acts).calls[pid].op)
    requires LegalRun(acts + [Steps(pid, k, port)] + more)
    requires var w, n := Run(acts), Next(Run(acts), Steps(pid, k, port));
             n.cell != w.cell && Succeeds(w.calls[pid], n.calls[pid].pc)
    ensures var w, n := Run(acts), Next(Run(acts), Steps(pid, k, port));
            var read := ClockOf(w.calls[pid], k);
            var end := read.stamp + read.ttl;
            && n.cell.Put? && n.cell.lock.leaseExpiresAt == end
            && (ClocksBefore(more, end) ==>
                  var b := Run(acts + [Steps(pid, k, port)] + more).cell;
                  || (b.Put? && b.lock.leaseExpiresAt >= end && Kept(n.cell.lock, b.lock))
                  || HandedBackDuring(acts + [Steps(pid, k, port)], more))
  {
    var a := Steps(pid, k, port);
    var w, n := Run(acts), Next(Run(acts), a);
    var read := ClockOf(w.calls[pid], k);
    assert forall x <- acts :: x in acts + [a] + more;
    RunInv(acts);
    assert CallOk(w, w.calls[pid]);
    StartsLease(w, w.calls[pid], k, port);
    WriteProtects(w, pid, k, port, read.stamp + read.ttl, n);
    Push(acts, a);
    if ClocksBefore(more, read.stamp + read.ttl) {
      RunProtects(acts + [a], more, read.stamp + read.ttl);
    }
  }

  lemma StartsLease(w: World, c: Call, k: Clock, port: Port)
    requires CallOk(w, c) && Leases(c.op) && (w.cell.Put? ==> w.cell.revision < w.revision)
    requires NextCell(w.cell, w.revision, c, k, port) != w.cell && Succeeds(c, NextPc(w.cell, c, k, port))
    ensures var n := NextCell(w.cell, w.revision, c, k, port);
            n.Put? && n.lock.leaseExpiresAt == ClockOf(c, k).stamp + ClockOf(c, k).ttl
  {
    SuccessStep(w, c, k, port);
    MemWrites(c.op, Abs(w.cell), ClockOf(c, k));
  }

  // ------------------------------------------------------------------ giving up

  /** The action is not the call's own, and changes the entry while the call is on. */
  predicate ChangesUnder(w: World, a: Action, p: nat) {
    p in w.calls && !(a.Steps? && a.pid == p) && Next(w, a).cell != w.cell
  }

  function ChangesByOthers(acts: seq<Action>, p: nat): nat {
    if acts == [] then 0
    else
      var init := acts[..|acts| - 1];
      ChangesByOthers(init, p) + if ChangesUnder(Run(init), acts[|acts| - 1], p) then 1 else 0
  }

  predicate LostTo(cell: Cell, c: Call, changes: nat) {
    match c.pc
    case Reading(a) => a < 8 && changes >= a
    case Swapping(a, read, _) => a < 8 && changes >= a && (cell != read ==> changes >= a + 1)
    case Returned(r) => r.RetriesExhausted? ==> changes >= 8
    case _ => true
  }

  lemma StepLoses(w: World, a: Action, p: nat, changes: nat)
    requires Inv(w) && p in Next(w, a).calls && (p in w.calls ==> LostTo(w.cell, w.calls[p], changes))
    ensures LostTo(Next(w, a).cell, Next(w, a).calls[p], changes + if ChangesUnder(w, a, p) then 1 else 0)
  {
    if p in w.calls {
      assert CallOk(w, w.calls[p]);
    }
  }

  lemma {:induction false} RunLoses(acts: seq<Action>, p: nat)
    requires LegalRun(acts) && p in Run(acts).calls
    ensures LostTo(Run(acts).cell, Run(acts).calls[p], ChangesByOthers(acts, p))
  {
    var n := |acts| - 1;
    var init := acts[..n];
    assert forall a <- init :: a in acts;
    RunInv(init);
    if p in Run(init).calls {
      RunLoses(init, p);
    }
    StepLoses(Run(init), acts[n], p, ChangesByOthers(init, p));
  }

  /** Theorem: a call gives up swapping only after others changed the entry at least eight times since it began. */
  lemma GivingUpMeansEightChanges(acts: seq<Action>, p: nat)
    requires LegalRun(acts) && p in Run(acts).calls && Run(acts).calls[p].pc == Returned(RetriesExhausted)
    ensures ChangesByOthers(acts, p) >= 8
  {
    RunLoses(acts, p);
  }
}
