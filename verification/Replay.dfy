/** The two-turn replay index of a conversation, the resume planner that reads it, and the live
    stream that follows. The event log is one sequence for all conversations; the event at
    position `i` has sequence `i + 1`. */
module Replay {
  import opened Wrappers
  import opened Domain

  datatype Kind =
    | TurnStarted
    | UserMessage
    | Citations
    | TextDelta
    | Finish
    | Interrupted
    | Clear
    | ErrorNote
    | TitleUpdated

  datatype Key = Key(tenant: Id, conversation: Id)

  datatype ChatEvent = ChatEvent(key: Key, user: Id, turnId: Id, kind: Kind, body: string)

  predicate EndsTurn(k: Kind) {
    k.Finish? || k.Interrupted? || k.Clear?
  }

  predicate IsIndexEvent(k: Kind) {
    k.TurnStarted? || EndsTurn(k)
  }

  datatype ReplayTurn = ReplayTurn(turnId: Id, startSeq: nat, endSeq: Option<nat>)

  datatype ReplayIndex = ReplayIndex(previous: Option<ReplayTurn>, current: Option<ReplayTurn>)

  const NO_TURNS := ReplayIndex(None, None)

  predicate IsTurn(t: Option<ReplayTurn>, turnId: Id) {
    t.Some? && t.value.turnId == turnId
  }

  function Ended(t: Option<ReplayTurn>, seqNo: nat): Option<ReplayTurn>
    requires t.Some?
  {
    Some(t.value.(endSeq := Some(seqNo)))
  }

  function ApplyReplayEvent(x: ReplayIndex, turnId: Id, seqNo: nat, kind: Kind): ReplayIndex {
    if kind.TurnStarted? then
      if IsTurn(x.current, turnId) then x
      else ReplayIndex(x.current, Some(ReplayTurn(turnId, seqNo, None)))
    else if EndsTurn(kind) then
      if IsTurn(x.current, turnId) then x.(current := Ended(x.current, seqNo))
      else if IsTurn(x.previous, turnId) then x.(previous := Ended(x.previous, seqNo))
      else x
    else x
  }

  /** The index of a conversation as the log implies it; none before its first index event. */
  function IndexOf(log: seq<ChatEvent>, key: Key): Option<ReplayIndex> {
    if log == [] then None
    else
      var n := |log| - 1;
      var before := IndexOf(log[..n], key);
      if log[n].key == key && IsIndexEvent(log[n].kind)
      then Some(ApplyReplayEvent(if before.Some? then before.value else NO_TURNS, log[n].turnId, n + 1, log[n].kind))
      else before
  }

  // ------------------------------------------------------------------ the in-memory bus

  class EventBus {
    var eventLog: seq<ChatEvent>
    var index: map<Key, ReplayIndex>
    var nextSequence: nat

    constructor ()
      ensures Valid() && eventLog == []
    {
      eventLog, index, nextSequence := [], map[], 0;
    }

    ghost predicate Valid()
      reads this
    {
      && nextSequence == |eventLog|
      && forall key: Key :: (if key in index then Some(index[key]) else None) == IndexOf(eventLog, key)
    }

    /** Publishing numbers the event and updates the index in place. */
    method PublishEvent(e: ChatEvent) returns (sequence: nat)
      requires Valid()
      modifies this
      ensures Valid() && eventLog == old(eventLog) + [e] && sequence == |eventLog|
    {
      nextSequence := nextSequence + 1;
      sequence := nextSequence;
      if IsIndexEvent(e.kind) {
        var x := if e.key in index then index[e.key] else NO_TURNS;
        if e.kind.TurnStarted? {
          if !IsTurn(x.current, e.turnId) {
            x := x.(previous := x.current);
            x := x.(current := Some(ReplayTurn(e.turnId, sequence, None)));
          }
        } else if IsTurn(x.current, e.turnId) {
          x := x.(current := Some(x.current.value.(endSeq := Some(sequence))));
        } else if IsTurn(x.previous, e.turnId) {
          x := x.(previous := Some(x.previous.value.(endSeq := Some(sequence))));
        }
        index := index[e.key := x];
      }
      ghost var was := eventLog;
      eventLog := eventLog + [e];
      assert eventLog[..|eventLog| - 1] == was;
    }
  }

  // ------------------------------------------------------------------ reading ranges

  datatype Sequenced = Sequenced(seqNo: nat, event: ChatEvent)

  /** Events of a conversation with sequence in `(lo, hi]`, in order. */
  function Between(log: seq<ChatEvent>, key: Key, lo: nat, hi: nat): seq<Sequenced> {
    if hi <= lo || hi > |log| then []
    else
      Between(log, key, lo, hi - 1)
      + (if log[hi - 1].key == key then [Sequenced(hi, log[hi - 1])] else [])
  }

  /** The same, for one user only: what that user is to receive. */
  function Owed(log: seq<ChatEvent>, key: Key, user: Id, lo: nat, hi: nat): seq<Sequenced> {
    if hi <= lo || hi > |log| then []
    else
      Owed(log, key, user, lo, hi - 1)
      + (if log[hi - 1].key == key && log[hi - 1].user == user then [Sequenced(hi, log[hi - 1])] else [])
  }

  lemma {:induction false} OwedSplits(log: seq<ChatEvent>, key: Key, user: Id, lo: nat, mid: nat, hi: nat)
    requires lo <= mid <= hi <= |log|
    ensures Owed(log, key, user, lo, hi) == Owed(log, key, user, lo, mid) + Owed(log, key, user, mid, hi)
  {
    if mid < hi {
      OwedSplits(log, key, user, lo, mid, hi - 1);
    }
  }

  // ------------------------------------------------------------------ sending with a last-sent filter

  function Sent(events: seq<Sequenced>, user: Id, last: nat): seq<Sequenced> {
    if events == [] then []
    else
      var n := |events| - 1;
      Sent(events[..n], user, last)
      + (if events[n].event.user == user && events[n].seqNo > LastSent(events[..n], user, last)
         then [events[n]] else [])
  }

  function LastSent(events: seq<Sequenced>, user: Id, last: nat): nat {
    if events == [] then last
    else
      var n := |events| - 1;
      var before := LastSent(events[..n], user, last);
      if events[n].event.user == user && events[n].seqNo > before then events[n].seqNo else before
  }

  /** The loop that both the replay and the live stream run. */
  method Send(events: seq<Sequenced>, user: Id, last: nat) returns (sent: seq<Sequenced>, lastSent: nat)
    ensures sent == Sent(events, user, last) && lastSent == LastSent(events, user, last)
  {
    sent, lastSent := [], last;
    for i := 0 to |events|
      invariant sent == Sent(events[..i], user, last) && lastSent == LastSent(events[..i], user, last)
    {
      assert events[..i + 1][..i] == events[..i];
      if events[i].event.user == user && events[i].seqNo > lastSent {
        sent := sent + [events[i]];
        lastSent := events[i].seqNo;
      }
    }
    assert events[..|events|] == events;
  }

  function Max(a: nat, b: nat): nat {
    if a < b then b else a
  }

  /** Sending a range of the log sends exactly what is owed above the last-sent mark, and moves the mark to the last one
      sent. */
  lemma {:induction false} SendRange(log: seq<ChatEvent>, key: Key, user: Id, lo: nat, hi: nat, last: nat)
    requires hi <= |log|
    ensures Sent(Between(log, key, lo, hi), user, last) == Owed(log, key, user, Max(lo, last), hi)
    ensures var m := LastSent(Between(log, key, lo, hi), user, last);
            && m >= last && (m > last ==> lo < m <= hi)
            && Owed(log, key, user, Max(Max(lo, last), m), hi) == []
  {
    if lo < hi {
      SendRange(log, key, user, lo, hi - 1, last);
      if log[hi - 1].key == key {
        SentSnoc(Between(log, key, lo, hi - 1), Sequenced(hi, log[hi - 1]), user, last);
      } else {
        assert Between(log, key, lo, hi) == Between(log, key, lo, hi - 1);
      }
    }
  }

  lemma SentSnoc(xs: seq<Sequenced>, x: Sequenced, user: Id, last: nat)
    ensures var goes := x.event.user == user && x.seqNo > LastSent(xs, user, last);
            && Sent(xs + [x], user, last) == Sent(xs, user, last) + (if goes then [x] else [])
            && LastSent(xs + [x], user, last) == if goes then x.seqNo else LastSent(xs, user, last)
  {
    assert (xs + [x])[..|xs|] == xs;
  }

  // ------------------------------------------------------------------ the planner

  /** What the client presents: nothing, something that is not a number, or the last sequence it saw. */
  datatype Resume = Fresh | Garbled | From(seqNo: nat)

  datatype Range = Range(start: nat, end: nat, lastSeen: nat, requiredStart: Option<nat>, requiredEnd: Option<nat>)

  datatype Planned<T> = Resync | Plan(value: T)

  function EndOf(t: ReplayTurn, latest: nat): nat {
    if t.endSeq.Some? then t.endSeq.value else latest
  }

  predicate Contains(t: Option<ReplayTurn>, n: nat, latest: nat) {
    t.Some? && t.value.startSeq <= n <= EndOf(t.value, latest)
  }

  /** Where a resumed replay ends: the current turn's end if it has one, else the newest sequence. */
  function ResumeEnd(x: ReplayIndex, latest: nat): nat {
    match (x.current, x.previous)
    case (Some(c), _) => EndOf(c, latest)
    case (None, Some(p)) => EndOf(p, latest)
    case (None, None) => latest
  }

  function RequiredEnd(x: ReplayIndex): Option<nat> {
    match (x.current, x.previous)
    case (Some(c), _) => c.endSeq
    case (None, Some(p)) => p.endSeq
    case (None, None) => None
  }

  /** `committed` tells whether the stored conversation already holds a turn. */
  function ReplayRange(x: ReplayIndex, r: Resume, committed: Id -> bool, latest: nat): Planned<Option<Range>> {
    match r
    case Fresh =>
      if x.current.None? || x.current.value.endSeq.Some? || committed(x.current.value.turnId) then Plan(None)
      else
        var c := x.current.value;
        Plan(Some(Range(c.startSeq, latest, 0, Some(c.startSeq), None)))
    case Garbled => Resync
    case From(n) =>
      if Contains(x.current, n, latest) then
        var c := x.current.value;
        if n >= EndOf(c, latest) then Plan(None)
        else Plan(Some(Range(n + 1, EndOf(c, latest), n, None, c.endSeq)))
      else if Contains(x.previous, n, latest) then
        if n >= ResumeEnd(x, latest) then Plan(None)
        else Plan(Some(Range(n + 1, ResumeEnd(x, latest), n, None, RequiredEnd(x))))
      else Resync
  }

  predicate Incomplete(events: seq<Sequenced>, r: Range) {
    || (r.requiredStart.Some? && (events == [] || events[0].seqNo != r.requiredStart.value))
    || (r.requiredEnd.Some? && (events == [] || events[|events| - 1].seqNo != r.requiredEnd.value))
  }

  datatype ReplayPlan = ReplayPlan(events: seq<Sequenced>, lastSeen: nat)

  /** The index, the newest sequence and the events are read one after the other: `read` is the log when the events
      are. */
  function BuildPlan(x: Option<ReplayIndex>, r: Resume, committed: Id -> bool, latest: nat,
                     read: seq<ChatEvent>, key: Key): Planned<ReplayPlan>
  {
    if x.None? then (if r.Fresh? then Plan(ReplayPlan([], 0)) else Resync)
    else
      match ReplayRange(x.value, r, committed, latest)
      case Resync => Resync
      case Plan(None) => Plan(ReplayPlan([], if r.From? then r.seqNo else 0))
      case Plan(Some(range)) =>
        var events := if range.start == 0 then [] else Between(read, key, range.start - 1, range.end);
        if Incomplete(events, range) then Resync else Plan(ReplayPlan(events, range.lastSeen))
  }

  /** Everything a client receives: the plan, then the live stream that began at `since`, up to the end of the log. */
  function Received(log: seq<ChatEvent>, key: Key, user: Id, since: nat, p: ReplayPlan): seq<Sequenced> {
    Sent(p.events, user, p.lastSeen)
    + Sent(Between(log, key, since, |log|), user, LastSent(p.events, user, p.lastSeen))
  }

  // ------------------------------------------------------------------ turns that do not interleave

  /** Event `i` belongs to the turn the conversation is in: a start opens a new turn, an end closes the current one,
      anything else falls inside the current open turn. */
  predicate InTurn(log: seq<ChatEvent>, key: Key, i: nat)
    requires i < |log|
  {
    log[i].key == key ==>
      var x := IndexOf(log[..i], key);
      var current := if x.Some? then x.value.current else None;
      if log[i].kind.TurnStarted? then !IsTurn(current, log[i].turnId)
      else IsTurn(current, log[i].turnId) && (EndsTurn(log[i].kind) || current.value.endSeq.None?)
  }

  predicate Orderly(log: seq<ChatEvent>, key: Key) {
    forall i :: 0 <= i < |log| ==> InTurn(log, key, i)
  }

  /** Some event of the conversation has its sequence in `(lo, hi]`. */
  predicate HasEvent(log: seq<ChatEvent>, key: Key, lo: nat, hi: nat) {
    exists i :: lo <= i < hi && i < |log| && log[i].key == key
  }

  /** What an orderly log's index says: a closed current turn ends at one of the conversation's events, and nothing of
      the conversation follows it. */
  predicate IndexTells(log: seq<ChatEvent>, key: Key, x: ReplayIndex) {
    && (x.previous.Some? ==> x.current.Some? && EndOf(x.previous.value, |log|) <= |log|)
    && (x.current.Some? ==>
          var c := x.current.value;
          && 0 < c.startSeq <= |log| && log[c.startSeq - 1].key == key
          && (c.endSeq.Some? ==>
                var e := c.endSeq.value;
                && 0 < e <= |log| && log[e - 1].key == key && !HasEvent(log, key, e, |log|)))
  }

  lemma {:induction false} IndexIsRight(log: seq<ChatEvent>, key: Key)
    requires Orderly(log, key)
    ensures IndexOf(log, key).Some? ==> IndexTells(log, key, IndexOf(log, key).value)
    ensures IndexOf(log, key).None? ==> !HasEvent(log, key, 0, |log|)
  {
    if log != [] {
      var n := |log| - 1;
      var init := log[..n];
      forall i | 0 <= i < n
        ensures InTurn(init, key, i)
      {
        assert init[..i] == log[..i] && InTurn(log, key, i);
      }
      IndexIsRight(init, key);
      assert InTurn(log, key, n);
      assert forall i :: 0 <= i < n ==> init[i] == log[i];
    }
  }

  // ------------------------------------------------------------------ theorems

  lemma {:induction false} OwedNothing(log: seq<ChatEvent>, key: Key, user: Id, lo: nat, hi: nat)
    requires hi <= |log| && !HasEvent(log, key, lo, hi)
    ensures Owed(log, key, user, lo, hi) == []
  {
    if lo < hi {
      assert !HasEvent(log, key, lo, hi - 1);
      OwedNothing(log, key, user, lo, hi - 1);
    }
  }

  lemma {:induction false} BetweenPrefix(log: seq<ChatEvent>, n: nat, key: Key, lo: nat, hi: nat)
    requires hi <= n <= |log|
    ensures Between(log[..n], key, lo, hi) == Between(log, key, lo, hi)
  {
    if lo < hi {
      BetweenPrefix(log, n, key, lo, hi - 1);
    }
  }

  /** The heart of resuming: a replay of `(k, end]` followed by the live stream from `since` gives what is owed above
      `k`, if and only if nothing owed fell between `end` and `since`. `seen` is where the last-sent mark starts. */
  lemma ReplayThenLive(log: seq<ChatEvent>, key: Key, user: Id, k: nat, end: nat, since: nat, seen: nat)
    requires k <= end <= |log| && since <= |log| && seen <= k
    requires seen == k || (k < end && log[k].key == key && log[k].user == user)
    ensures Received(log, key, user, since, ReplayPlan(Between(log, key, k, end), seen))
            == Owed(log, key, user, k, |log|)
            <==> Owed(log, key, user, end, since) == []
  {
    SendRange(log, key, user, k, end, seen);
    var mark := LastSent(Between(log, key, k, end), user, seen);
    MarkPassesStart(log, key, user, k, end, mark, seen);
    SendRange(log, key, user, since, |log|, mark);
    OwedSplits(log, key, user, k, end, |log|);
    LiveHalf(log, key, user, end, since, mark);
    SameTail(Owed(log, key, user, k, end), Owed(log, key, user, Max(since, mark), |log|),
             Owed(log, key, user, end, |log|));
  }

  lemma SameTail(a: seq<Sequenced>, b: seq<Sequenced>, c: seq<Sequenced>)
    ensures a + b == a + c <==> b == c
  {
    assert (a + b)[|a|..] == b && (a + c)[|a|..] == c;
  }

  lemma LiveHalf(log: seq<ChatEvent>, key: Key, user: Id, end: nat, since: nat, mark: nat)
    requires mark <= end <= |log| && since <= |log| && Owed(log, key, user, mark, end) == []
    ensures Owed(log, key, user, Max(since, mark), |log|) == Owed(log, key, user, end, |log|)
            <==> Owed(log, key, user, end, since) == []
  {
    var N := |log|;
    var from := Max(since, mark);
    if since <= end {
      // The live stream overlaps the replay; the mark drops the overlap.
      OwedSplits(log, key, user, from, end, N);
      OwedSplits(log, key, user, mark, from, end);
      OwedEmptyRange(log, key, user, end, since);
    } else {
      OwedSplits(log, key, user, end, since, N);
    }
  }

  lemma MarkPassesStart(log: seq<ChatEvent>, key: Key, user: Id, k: nat, end: nat, mark: nat, seen: nat)
    requires k <= end <= |log| && mark >= seen
    requires seen == k || (k < end && log[k].key == key && log[k].user == user)
    requires Owed(log, key, user, Max(Max(k, seen), mark), end) == []
    ensures mark >= k
  {
    if seen < k && mark <= k {
      OwedSplits(log, key, user, k, k + 1, end);
      assert Owed(log, key, user, k, k + 1) == [Sequenced(k + 1, log[k])];
    }
  }

  /** The planner's answer to a client that resumes from `k` inside one of the last two turns. */
  lemma ResumePlan(log: seq<ChatEvent>, key: Key, k: nat, committed: Id -> bool, latest: nat, n3: nat, x: ReplayIndex,
                   e: nat)
    requires k <= latest <= n3 <= |log| && e == ResumeEnd(x, latest) <= latest && x.current.Some?
    requires Contains(x.current, k, latest) || Contains(x.previous, k, latest)
    requires x.current.value.endSeq.Some? ==> 0 < e && log[e - 1].key == key
    ensures BuildPlan(Some(x), From(k), committed, latest, log[..n3], key)
            == Plan(ReplayPlan(Between(log, key, k, Max(k, e)), k))
  {
    var c := x.current.value;
    ResumeRange(x, k, committed, latest, e);
    if k < e {
      BetweenPrefix(log, n3, key, k, e);
      if c.endSeq.Some? {
        LastBetween(log, key, k, e);
      }
      PlanFromRange(x, From(k), committed, latest, log[..n3], key, Range(k + 1, e, k, None, c.endSeq),
                    Between(log, key, k, e));
    }
  }

  lemma ResumeRange(x: ReplayIndex, k: nat, committed: Id -> bool, latest: nat, e: nat)
    requires e == ResumeEnd(x, latest) && x.current.Some?
    requires Contains(x.current, k, latest) || Contains(x.previous, k, latest)
    ensures ReplayRange(x, From(k), committed, latest)
            == Plan(if k < e then Some(Range(k + 1, e, k, None, x.current.value.endSeq)) else None)
  {
  }

  lemma PlanFromRange(x: ReplayIndex, r: Resume, committed: Id -> bool, latest: nat, read: seq<ChatEvent>, key: Key,
                      range: Range, events: seq<Sequenced>)
    requires ReplayRange(x, r, committed, latest) == Plan(Some(range)) && range.start > 0
    requires events == Between(read, key, range.start - 1, range.end) && !Incomplete(events, range)
    ensures BuildPlan(Some(x), r, committed, latest, read, key) == Plan(ReplayPlan(events, range.lastSeen))
  {
  }

  /** What the index of an orderly prefix guarantees about where a resume ends. */
  lemma ResumeEndIsSafe(log: seq<ChatEvent>, key: Key, n1: nat, latest: nat, x: ReplayIndex, e: nat)
    requires n1 <= latest <= |log| && IndexTells(log[..n1], key, x) && x.current.Some? && e == ResumeEnd(x, latest)
    ensures e <= latest
    ensures x.current.value.endSeq.Some? ==> 0 < e && log[e - 1].key == key
    ensures e < latest ==> forall i :: e <= i < n1 ==> log[i].key != key
  {
    assert forall i :: 0 <= i < n1 ==> log[..n1][i] == log[i];
  }

  lemma LastBetween(log: seq<ChatEvent>, key: Key, k: nat, e: nat)
    requires k < e <= |log| && log[e - 1].key == key
    ensures var xs := Between(log, key, k, e); xs != [] && xs[|xs| - 1].seqNo == e
  {
  }

  /** Theorem: the subscription is made at `since`, then the index, the newest sequence and the events are read,
      while the log keeps growing. Resuming from any sequence inside the last two turns, replay followed by live
      delivery is exactly what the user is owed above it: in order, once each, nothing missing. */
  lemma ResumeDeliversExactly(log: seq<ChatEvent>, key: Key, user: Id, k: nat, committed: Id -> bool,
                              since: nat, n1: nat, latest: nat, n3: nat)
    requires since <= n1 <= latest <= n3 <= |log| && Orderly(log[..n1], key)
    requires InLastTwoTurns(IndexOf(log[..n1], key), k, latest)
    ensures var p := BuildPlan(IndexOf(log[..n1], key), From(k), committed, latest, log[..n3], key);
            p.Plan? && Received(log, key, user, since, p.value) == Owed(log, key, user, k, |log|)
  {
    IndexIsRight(log[..n1], key);
    var x := IndexOf(log[..n1], key).value;
    ResumeWith(log, key, user, k, committed, since, n1, latest, n3, x, ResumeEnd(x, latest));
  }

  lemma ResumeWith(log: seq<ChatEvent>, key: Key, user: Id, k: nat, committed: Id -> bool,
                   since: nat, n1: nat, latest: nat, n3: nat, x: ReplayIndex, e: nat)
    requires since <= n1 <= latest <= n3 <= |log| && IndexTells(log[..n1], key, x) && e == ResumeEnd(x, latest)
    requires Contains(x.current, k, latest) || Contains(x.previous, k, latest)
    ensures var p := BuildPlan(Some(x), From(k), committed, latest, log[..n3], key);
            p.Plan? && Received(log, key, user, since, p.value) == Owed(log, key, user, k, |log|)
  {
    ResumeEndIsSafe(log, key, n1, latest, x, e);
    ResumePlan(log, key, k, committed, latest, n3, x, e);
    OwedMeans(log, key, user, Max(k, e), since);
    ReplayThenLive(log, key, user, k, Max(k, e), since, k);
  }

  /** Theorem: a client with no history that joins an unfinished, uncommitted turn receives that turn from its start
      on. */
  lemma FreshDeliversOpenTurn(log: seq<ChatEvent>, key: Key, user: Id, committed: Id -> bool,
                              since: nat, n1: nat, latest: nat, n3: nat)
    requires since <= n1 <= latest <= n3 <= |log| && Orderly(log[..n1], key)
    requires var x := IndexOf(log[..n1], key);
             && x.Some? && x.value.current.Some? && x.value.current.value.endSeq.None?
             && !committed(x.value.current.value.turnId)
    requires var start := IndexOf(log[..n1], key).value.current.value.startSeq;
             0 < start <= |log| ==> log[start - 1].user == user
    ensures var x := IndexOf(log[..n1], key);
            var p := BuildPlan(x, Fresh, committed, latest, log[..n3], key);
            var start := x.value.current.value.startSeq;
            p.Plan? && start > 0 && Received(log, key, user, since, p.value) == Owed(log, key, user, start - 1, |log|)
  {
    IndexIsRight(log[..n1], key);
    var x := IndexOf(log[..n1], key).value;
    var start := x.current.value.startSeq;
    assert log[..n1][start - 1] == log[start - 1];
    FreshPlan(log, key, committed, latest, n3, x, start);
    OwedEmptyRange(log, key, user, latest, since);
    ReplayThenLive(log, key, user, start - 1, latest, since, 0);
  }

  lemma FreshPlan(log: seq<ChatEvent>, key: Key, committed: Id -> bool, latest: nat, n3: nat, x: ReplayIndex,
                  start: nat)
    requires 0 < start <= latest <= n3 <= |log| && log[start - 1].key == key
    requires x.current.Some? && x.current.value.endSeq.None? && x.current.value.startSeq == start
    requires !committed(x.current.value.turnId)
    ensures BuildPlan(Some(x), Fresh, committed, latest, log[..n3], key)
            == Plan(ReplayPlan(Between(log, key, start - 1, latest), 0))
  {
    BetweenPrefix(log, n3, key, start - 1, latest);
    FirstBetween(log, key, start - 1, latest);
    PlanFromRange(x, Fresh, committed, latest, log[..n3], key, Range(start, latest, 0, Some(start), None),
                  Between(log, key, start - 1, latest));
  }

  lemma OwedEmptyRange(log: seq<ChatEvent>, key: Key, user: Id, lo: nat, hi: nat)
    requires hi <= lo
    ensures Owed(log, key, user, lo, hi) == []
  {
  }

  lemma {:induction false} FirstBetween(log: seq<ChatEvent>, key: Key, k: nat, e: nat)
    requires k < e <= |log| && log[k].key == key
    ensures var xs := Between(log, key, k, e); xs != [] && xs[0].seqNo == k + 1
  {
    if e > k + 1 {
      FirstBetween(log, key, k, e - 1);
    }
  }

  /** What the index says of any log: a previous turn has a successor; a turn's start is the start event of that turn,
      and its end is one of its end events. */
  predicate IndexFits(log: seq<ChatEvent>, key: Key, x: ReplayIndex) {
    (x.previous.Some? ==> x.current.Some?) && TurnFits(log, key, x.current) && TurnFits(log, key, x.previous)
  }

  predicate TurnFits(log: seq<ChatEvent>, key: Key, t: Option<ReplayTurn>) {
    t.Some? ==>
      && 0 < t.value.startSeq <= |log|
      && IsOfTurn(log[t.value.startSeq - 1], key, t.value.turnId) && log[t.value.startSeq - 1].kind.TurnStarted?
      && (t.value.endSeq.Some? ==>
            && 0 < t.value.endSeq.value <= |log|
            && IsOfTurn(log[t.value.endSeq.value - 1], key, t.value.turnId)
            && EndsTurn(log[t.value.endSeq.value - 1].kind))
  }

  predicate IsOfTurn(e: ChatEvent, key: Key, turnId: Id) {
    e.key == key && e.turnId == turnId
  }

  lemma {:induction false} IndexAlwaysFits(log: seq<ChatEvent>, key: Key)
    ensures IndexOf(log, key).Some? ==> IndexFits(log, key, IndexOf(log, key).value)
  {
    if log != [] {
      IndexAlwaysFits(log[..|log| - 1], key);
    }
  }

  /** The sequence lies in the turn: from its start to its end, or to the newest sequence while it is open. */
  predicate Within(t: Option<ReplayTurn>, k: nat, latest: nat) {
    t.Some? && t.value.startSeq <= k && k <= (match t.value.endSeq case Some(e) => e case None => latest)
  }

  predicate InLastTwoTurns(x: Option<ReplayIndex>, k: nat, latest: nat) {
    x.Some? && (Within(x.value.current, k, latest) || Within(x.value.previous, k, latest))
  }

  /** The sequences at which the conversation's turns started. */
  function Starts(log: seq<ChatEvent>, key: Key): seq<nat> {
    if log == [] then []
    else
      var n := |log| - 1;
      Starts(log[..n], key) + (if log[n].key == key && log[n].kind.TurnStarted? then [n + 1] else [])
  }

  /** The last end event of the conversation above a sequence. */
  function LastEnd(log: seq<ChatEvent>, key: Key, above: nat): Option<nat> {
    if |log| <= above then None
    else
      var n := |log| - 1;
      if log[n].key == key && EndsTurn(log[n].kind) then Some(n + 1) else LastEnd(log[..n], key, above)
  }

  /** Which turns those are, in an orderly log: the last two that started, the current one closed by its last end. */
  lemma {:induction false} IndexHasLastTwo(log: seq<ChatEvent>, key: Key)
    requires Orderly(log, key)
    ensures var x, starts := IndexOf(log, key), Starts(log, key);
            if x.None? then starts == []
            else
              && (x.value.current.Some? <==> |starts| > 0) && (x.value.previous.Some? <==> |starts| > 1)
              && (|starts| > 0 ==>
                    && x.value.current.value.startSeq == starts[|starts| - 1]
                    && x.value.current.value.endSeq == LastEnd(log, key, starts[|starts| - 1]))
              && (|starts| > 1 ==> x.value.previous.value.startSeq == starts[|starts| - 2])
  {
    if log != [] {
      var n := |log| - 1;
      var init := log[..n];
      forall i | 0 <= i < n
        ensures InTurn(init, key, i)
      {
        assert init[..i] == log[..i] && InTurn(log, key, i);
      }
      IndexHasLastTwo(init, key);
      IndexAlwaysFits(init, key);
      assert InTurn(log, key, n);
    }
  }

  /** The last event above a sequence that finishes, interrupts or clears the turn. */
  function LastEndOf(log: seq<ChatEvent>, key: Key, turnId: Id, above: nat): Option<nat> {
    if |log| <= above then None
    else
      var n := |log| - 1;
      if log[n].key == key && log[n].turnId == turnId && log[n].kind in {Finish, Interrupted, Clear} then Some(n + 1)
      else LastEndOf(log[..n], key, turnId, above)
  }

  /** In any log, each of the two turns ends at the last event above its start that finishes, interrupts or clears
      it. */
  lemma {:induction false} EndsAreLast(log: seq<ChatEvent>, key: Key)
    ensures var x := IndexOf(log, key);
            x.Some? ==>
              && (x.value.current.Some? && x.value.previous.Some? ==>
                    x.value.current.value.turnId != x.value.previous.value.turnId)
              && EndIsLast(log, key, x.value.current) && EndIsLast(log, key, x.value.previous)
  {
    if log != [] {
      var n := |log| - 1;
      EndsAreLast(log[..n], key);
      IndexAlwaysFits(log[..n], key);
    }
  }

  predicate EndIsLast(log: seq<ChatEvent>, key: Key, t: Option<ReplayTurn>) {
    t.Some? ==> t.value.endSeq == LastEndOf(log, key, t.value.turnId, t.value.startSeq)
  }

  /** The index has a current turn that has not ended and that the stored conversation does not hold. */
  predicate HasOpenTurn(x: Option<ReplayIndex>, committed: Id -> bool) {
    x.Some? && x.value.current.Some? && x.value.current.value.endSeq.None? && !committed(x.value.current.value.turnId)
  }

  /** Theorem: for any log, a client without history gets a plan, and that plan replays something exactly when there is
      an open, uncommitted turn: then all of it so far. Otherwise it receives what is published from its subscription
      on. */
  lemma FreshPlanIsExact(log: seq<ChatEvent>, key: Key, user: Id, committed: Id -> bool,
                         since: nat, n1: nat, latest: nat, n3: nat)
    requires since <= n1 <= latest <= n3 <= |log|
    ensures var x := IndexOf(log[..n1], key);
            var p := BuildPlan(x, Fresh, committed, latest, log[..n3], key);
            && p.Plan?
            && (p.value.events != [] <==> HasOpenTurn(x, committed))
            && (HasOpenTurn(x, committed) ==>
                  var start := x.value.current.value.startSeq;
                  start > 0 && p.value.events == Between(log, key, start - 1, latest))
            && (!HasOpenTurn(x, committed) ==>
                  Received(log, key, user, since, p.value) == Owed(log, key, user, since, |log|))
  {
    var x := IndexOf(log[..n1], key);
    IndexAlwaysFits(log[..n1], key);
    if HasOpenTurn(x, committed) {
      var start := x.value.current.value.startSeq;
      assert log[..n1][start - 1] == log[start - 1];
      FreshPlan(log, key, committed, latest, n3, x.value, start);
      FirstBetween(log, key, start - 1, latest);
    } else {
      SendRange(log, key, user, since, |log|, 0);
    }
  }

  /** An event id that does not read is always a resync. */
  lemma GarbledIsResync(x: Option<ReplayIndex>, committed: Id -> bool, latest: nat, read: seq<ChatEvent>, key: Key)
    ensures BuildPlan(x, Garbled, committed, latest, read, key).Resync?
  {
  }

  /** Theorem: for any log, turns interleaved or not, a resume is planned exactly when its point lies in one of the
      last two turns, and then the client misses something exactly when one of the user's events was published after
      the replay ends and before the subscription, such as a late title. */
  lemma MissedExactlyWhenBetween(log: seq<ChatEvent>, key: Key, user: Id, k: nat, committed: Id -> bool,
                                 since: nat, n1: nat, latest: nat, n3: nat)
    requires since <= n1 <= latest <= n3 <= |log|
    ensures var x := IndexOf(log[..n1], key);
            var p := BuildPlan(x, From(k), committed, latest, log[..n3], key);
            && (p.Plan? <==> InLastTwoTurns(x, k, latest))
            && (p.Plan? ==>
                  (Received(log, key, user, since, p.value) == Owed(log, key, user, k, |log|)
                   <==> NoneOf(log, key, user, Max(k, ResumeEnd(x.value, latest)), since)))
  {
    var x := IndexOf(log[..n1], key);
    IndexAlwaysFits(log[..n1], key);
    if InLastTwoTurns(x, k, latest) {
      var e := ResumeEnd(x.value, latest);
      assert forall i :: 0 <= i < n1 ==> log[..n1][i] == log[i];
      ResumePlan(log, key, k, committed, latest, n3, x.value, e);
      ReplayThenLive(log, key, user, k, Max(k, e), since, k);
      OwedMeans(log, key, user, Max(k, e), since);
    }
  }

  /** None of the user's events of the conversation has its index in `[lo, hi)`. */
  predicate NoneOf(log: seq<ChatEvent>, key: Key, user: Id, lo: nat, hi: nat) {
    forall i :: lo <= i < hi && i < |log| ==> !(log[i].key == key && log[i].user == user)
  }

  /** A turn, its finish, and a title published after it. */
  function LateTitle(key: Key, user: Id, turn: Id): seq<ChatEvent> {
    [ChatEvent(key, user, turn, TurnStarted, ""), ChatEvent(key, user, turn, Finish, ""),
     ChatEvent(key, user, turn, TitleUpdated, "title")]
  }

  /** A client that saw the turn start and subscribes after the title never receives the title. */
  lemma LateTitleIsMissed(key: Key, user: Id, turn: Id, committed: Id -> bool)
    ensures var log := LateTitle(key, user, turn);
            var p := BuildPlan(IndexOf(log, key), From(1), committed, 3, log, key);
            p.Plan? && Received(log, key, user, 3, p.value) != Owed(log, key, user, 1, 3)
  {
    var log := LateTitle(key, user, turn);
    assert log[..3] == log;
    assert log[..2][..1] == log[..1] && log[..1][..0] == [];
    assert IndexOf(log[..1], key) == Some(ReplayIndex(None, Some(ReplayTurn(turn, 1, None))));
    assert IndexOf(log[..2], key) == Some(ReplayIndex(None, Some(ReplayTurn(turn, 1, Some(2)))));
    assert IndexOf(log, key) == IndexOf(log[..2], key);
    MissedExactlyWhenBetween(log, key, user, 1, committed, 3, 3, 3, 3);
    assert log[2].key == key && log[2].user == user;
  }

  lemma {:induction false} OwedMeans(log: seq<ChatEvent>, key: Key, user: Id, lo: nat, hi: nat)
    requires hi <= |log|
    ensures Owed(log, key, user, lo, hi) == [] <==>
            forall i :: lo <= i < hi ==> !(log[i].key == key && log[i].user == user)
  {
    if lo < hi {
      OwedMeans(log, key, user, lo, hi - 1);
    }
  }
}
