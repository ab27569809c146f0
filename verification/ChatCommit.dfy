/** Committing a chat turn, in its two forms: the in-memory repository truncates and appends to a list of messages, the
    relational one deletes and upserts rows that carry an ordinal. One tenant and one user; the conversations of that
    tenant share one table of messages, keyed by message id. */
module ChatCommit {
  import opened Wrappers

  type Id = string

  datatype Role = User | Assistant

  datatype Message = Message(
    id: Id, role: Role, content: string, parent: Option<Id>, citations: seq<string>, turnId: Option<Id>,
    interrupted: bool, finishReason: Option<string>)

  datatype Turn = Turn(
    id: Id, userId: Id, userText: string, parent: Option<Id>, assistantId: Id, assistantText: string,
    citations: seq<string>, interrupted: bool, finishReason: Option<string>)

  datatype StorageError = NotFound | StaleParent | Internal

  function UserMessage(t: Turn): Message {
    Message(t.userId, User, t.userText, t.parent, [], Some(t.id), false, None)
  }

  function AssistantMessage(t: Turn): Message {
    Message(t.assistantId, Assistant, t.assistantText, Some(t.userId), t.citations, Some(t.id), t.interrupted,
            t.finishReason)
  }

  // ------------------------------------------------------------------ the list form

  type Lists = map<Id, seq<Message>>

  /** `next` is the column `next_message_ordinal`. */
  datatype Memory = Memory(messages: Lists, next: map<Id, nat>)

  function Position(ms: seq<Message>, id: Id): (r: Option<nat>)
    ensures r.Some? ==> r.value < |ms| && ms[r.value].id == id && forall m <- ms[..r.value] :: m.id != id
    ensures r.None? ==> forall m <- ms :: m.id != id
  {
    if ms == [] then None
    else if ms[0].id == id then Some(0)
    else
      match Position(ms[1..], id)
      case None => None
      case Some(k) =>
        assert ms[..k + 1] == [ms[0]] + ms[1..][..k];
        Some(k + 1)
  }

  /** How many messages the turn keeps; none when its parent is not there. */
  function Retained(ms: seq<Message>, parent: Option<Id>): (r: Option<nat>)
    ensures r.Some? ==> r.value <= |ms|
  {
    match parent
    case None => Some(0)
    case Some(p) =>
      match Position(ms, p)
      case None => None
      case Some(k) => Some(k + 1)
  }

  function ListCommit(m: Memory, c: Id, t: Turn): Result<Memory, StorageError> {
    if c !in m.messages then Err(NotFound)
    else
      match Retained(m.messages[c], t.parent)
      case None => Err(StaleParent)
      case Some(k) =>
        var ms := m.messages[c][..k] + [UserMessage(t), AssistantMessage(t)];
        Ok(Memory(m.messages[c := ms], m.next[c := |ms| + 1]))
  }

  /** What a stored turn looks like, field by field: the user's message and then the assistant's. */
  predicate StoresTurn(u: Message, a: Message, t: Turn) {
    && u.id == t.userId && u.role == User && u.content == t.userText && u.parent == t.parent
    && u.turnId == Some(t.id) && u.citations == [] && !u.interrupted && u.finishReason == None
    && a.id == t.assistantId && a.role == Assistant && a.content == t.assistantText && a.parent == Some(t.userId)
    && a.turnId == Some(t.id) && a.citations == t.citations && a.interrupted == t.interrupted
    && a.finishReason == t.finishReason
  }

  /** What a turn does to a conversation: it keeps everything up to its parent, or nothing when it has none, and its two
      messages follow. */
  predicate TurnStored(before: seq<Message>, after: seq<Message>, t: Turn) {
    && |after| >= 2 && StoresTurn(after[|after| - 2], after[|after| - 1], t)
    && var k := |after| - 2;
       && k <= |before| && after[..k] == before[..k]
       && match t.parent
          case None => k == 0
          case Some(p) => k > 0 && before[k - 1].id == p && forall m <- before[..k - 1] :: m.id != p
  }

  predicate HasId(ms: seq<Message>, id: Id) {
    exists i :: 0 <= i < |ms| && ms[i].id == id
  }

  /** When a turn is refused, why, and what a taken one stores. */
  lemma ListCommitIs(m: Memory, c: Id, t: Turn)
    ensures ListCommit(m, c, t) == Err(NotFound) <==> c !in m.messages
    ensures ListCommit(m, c, t) == Err(StaleParent)
            <==> c in m.messages && t.parent.Some? && !HasId(m.messages[c], t.parent.value)
    ensures ListCommit(m, c, t) != Err(Internal)
    ensures ListCommit(m, c, t).Ok? ==>
              var n := ListCommit(m, c, t).value;
              && n.messages.Keys == m.messages.Keys && TurnStored(m.messages[c], n.messages[c], t)
              && (forall d :: d in m.messages && d != c ==> n.messages[d] == m.messages[d])
              && n.next == m.next[c := |n.messages[c]| + 1]
  {
    if c in m.messages && t.parent.Some? {
      match Position(m.messages[c], t.parent.value) {
        case Some(k) => assert HasId(m.messages[c], t.parent.value);
        case None => assert forall i :: 0 <= i < |m.messages[c]| ==> m.messages[c][i] in m.messages[c];
      }
    }
  }

  class MemoryChatRepository {
    var messages: Lists
    var next: map<Id, nat>

    ghost function State(): Memory
      reads this
    {
      Memory(messages, next)
    }

    method CommitTurn(c: Id, t: Turn) returns (r: Result<seq<Message>, StorageError>)
      modifies this
      ensures var after := ListCommit(old(State()), c, t);
              if after.Ok? then State() == after.value && c in messages && r == Ok(messages[c])
              else r == Err(after.error) && State() == old(State())
      ensures r.Ok? ==> c in old(messages) && TurnStored(old(messages)[c], r.value, t)
      ensures r == Err(NotFound) <==> c !in old(messages)
      ensures r == Err(StaleParent) <==>
              c in old(messages) && t.parent.Some? && !HasId(old(messages)[c], t.parent.value)
    {
      ListCommitIs(State(), c, t);
      if c !in messages {
        return Err(NotFound);
      }
      var retain := 0;
      if t.parent.Some? {
        var position := Find(messages[c], t.parent.value);
        if position.None? {
          return Err(StaleParent);
        }
        retain := position.value + 1;
      }
      var kept := messages[c][..retain];
      kept := kept + [UserMessage(t)];
      kept := kept + [AssistantMessage(t)];
      assert kept == messages[c][..retain] + [UserMessage(t), AssistantMessage(t)];
      messages := messages[c := kept];
      next := next[c := |kept| + 1];
      return Ok(kept);
    }
  }

  method Find(ms: seq<Message>, id: Id) returns (r: Option<nat>)
    ensures r == Position(ms, id)
  {
    var i := 0;
    while i < |ms|
      invariant 0 <= i <= |ms|
      invariant Position(ms, id) == Shift(Position(ms[i..], id), i)
    {
      if ms[i].id == id {
        return Some(i);
      }
      assert ms[i..][1..] == ms[i + 1..];
      i := i + 1;
    }
    return None;
  }

  function Shift(r: Option<nat>, n: nat): Option<nat> {
    if r.None? then None else Some(r.value + n)
  }

  // ------------------------------------------------------------------ the table form

  datatype Row = Row(conversation: Id, ordinal: nat, message: Message)

  type Rows = map<Id, Row>

  datatype Tables = Tables(conversations: map<Id, nat>, rows: Rows)

  function ParentOrdinal(rows: Rows, c: Id, parent: Option<Id>): Option<nat> {
    match parent
    case None => Some(0)
    case Some(p) => if p in rows && rows[p].conversation == c then Some(rows[p].ordinal) else None
  }

  predicate Above(r: Row, c: Id, ordinal: nat) {
    r.conversation == c && r.ordinal > ordinal
  }

  function DeleteAbove(rows: Rows, c: Id, ordinal: nat): Rows {
    map k | k in rows && !Above(rows[k], c, ordinal) :: rows[k]
  }

  /** A row already stored under the new message's id is overwritten where it stands: it keeps its conversation, its id
      and its role, and a user message keeps its stored citations, interruption and finish reason. */
  function Overwrite(stored: Row, row: Row): Row {
    var m, n := stored.message, row.message;
    Row(stored.conversation, row.ordinal,
        if n.role.User? then m.(content := n.content, parent := n.parent, turnId := n.turnId)
        else m.(content := n.content, parent := n.parent, turnId := n.turnId, citations := n.citations,
                interrupted := n.interrupted, finishReason := n.finishReason))
  }

  predicate Clashes(rows: Rows, id: Id, row: Row) {
    exists k :: k in rows && k != id && rows[k].conversation == row.conversation && rows[k].ordinal == row.ordinal
  }

  /** `None` when the new row would break the uniqueness of ordinals within a conversation. */
  function Upsert(rows: Rows, row: Row): Option<Rows> {
    var id := row.message.id;
    var put := if id in rows then Overwrite(rows[id], row) else row;
    if Clashes(rows, id, put) then None else Some(rows[id := put])
  }

  function UpsertTurn(rows: Rows, c: Id, ordinal: nat, t: Turn): Option<Rows> {
    match Upsert(rows, Row(c, ordinal + 1, UserMessage(t)))
    case None => None
    case Some(one) => Upsert(one, Row(c, ordinal + 2, AssistantMessage(t)))
  }

  /** A transaction: an error leaves the tables as they were. */
  function TableCommit(s: Tables, c: Id, t: Turn): Result<Tables, StorageError> {
    if c !in s.conversations then Err(NotFound)
    else
      match ParentOrdinal(s.rows, c, t.parent)
      case None => Err(StaleParent)
      case Some(p) =>
        match UpsertTurn(DeleteAbove(s.rows, c, p), c, p, t)
        case None => Err(Internal)
        case Some(rows) => Ok(Tables(s.conversations[c := p + 3], rows))
  }

  class PgChatRepository {
    var conversations: map<Id, nat>
    var rows: Rows

    ghost function State(): Tables
      reads this
    {
      Tables(conversations, rows)
    }

    method CommitTurn(c: Id, t: Turn) returns (r: Result<(), StorageError>)
      modifies this
      ensures var after := TableCommit(old(State()), c, t);
              if after.Ok? then r == Ok(()) && State() == after.value
              else r == Err(after.error) && State() == old(State())
    {
      if c !in conversations {
        return Err(NotFound);
      }
      var parentOrdinal := 0;
      if t.parent.Some? {
        var p := t.parent.value;
        if p !in rows || rows[p].conversation != c {
          return Err(StaleParent);
        }
        parentOrdinal := rows[p].ordinal;
      }
      var tx := DeleteAbove(rows, c, parentOrdinal);
      var user := Upsert(tx, Row(c, parentOrdinal + 1, UserMessage(t)));
      if user.None? {
        return Err(Internal);
      }
      tx := user.value;
      var assistant := Upsert(tx, Row(c, parentOrdinal + 2, AssistantMessage(t)));
      if assistant.None? {
        return Err(Internal);
      }
      tx := assistant.value;
      conversations, rows := conversations[c := parentOrdinal + 3], tx;
      return Ok(());
    }
  }

  // ------------------------------------------------------------------ the two forms agree

  /** The table holds exactly the messages of the lists, each at its place counted from 1. */
  ghost predicate Represents(rows: Rows, lists: Lists) {
    && (forall c, i :: c in lists && 0 <= i < |lists[c]| ==> Stores(rows, c, i, lists[c][i]))
    && (forall k :: k in rows ==> Comes(k, rows[k], lists))
  }

  ghost predicate Stores(rows: Rows, c: Id, i: nat, m: Message) {
    m.id in rows && rows[m.id] == Row(c, i + 1, m)
  }

  ghost predicate Comes(k: Id, r: Row, lists: Lists) {
    && r.conversation in lists
    && 1 <= r.ordinal <= |lists[r.conversation]|
    && lists[r.conversation][r.ordinal - 1].id == k
  }

  ghost predicate Agree(m: Memory, s: Tables) {
    s.conversations == m.next && m.next.Keys == m.messages.Keys && Represents(s.rows, m.messages)
  }

  /** A represented list finds a message where its row says. */
  lemma ParentAgrees(rows: Rows, lists: Lists, c: Id, parent: Option<Id>)
    requires Represents(rows, lists) && c in lists
    ensures ParentOrdinal(rows, c, parent) == Retained(lists[c], parent)
  {
    if parent.Some? {
      var p := parent.value;
      if p in rows && rows[p].conversation == c {
        assert Comes(p, rows[p], lists);
        assert lists[c][rows[p].ordinal - 1] in lists[c];
      }
      match Position(lists[c], p) {
        case Some(k) =>
          assert Stores(rows, c, k, lists[c][k]);
        case None =>
      }
    }
  }

  /** Deleting the rows above `k` is truncating to `k`. */
  lemma DeleteIsTruncate(rows: Rows, lists: Lists, c: Id, k: nat)
    requires Represents(rows, lists) && c in lists && k <= |lists[c]|
    ensures Represents(DeleteAbove(rows, c, k), lists[c := lists[c][..k]])
  {
    var less, cut := DeleteAbove(rows, c, k), lists[c := lists[c][..k]];
    forall d, i | d in cut && 0 <= i < |cut[d]|
      ensures Stores(less, d, i, cut[d][i])
    {
      assert Stores(rows, d, i, lists[d][i]);
    }
    forall q | q in less
      ensures Comes(q, less[q], cut)
    {
      assert Comes(q, rows[q], lists);
    }
  }

  /** Inserting a row with an unused id right above the others is appending. */
  lemma InsertIsPush(rows: Rows, lists: Lists, c: Id, m: Message)
    requires Represents(rows, lists) && c in lists && m.id !in rows
    ensures Upsert(rows, Row(c, |lists[c]| + 1, m)) == Some(rows[m.id := Row(c, |lists[c]| + 1, m)])
    ensures Represents(rows[m.id := Row(c, |lists[c]| + 1, m)], lists[c := lists[c] + [m]])
  {
    var more, longer := rows[m.id := Row(c, |lists[c]| + 1, m)], lists[c := lists[c] + [m]];
    forall k | k in rows
      ensures Comes(k, rows[k], lists) && Comes(k, rows[k], longer)
    {
    }
    forall d, i | d in longer && 0 <= i < |longer[d]|
      ensures Stores(more, d, i, longer[d][i])
    {
      assert d in lists && i < |lists[d]| ==> Stores(rows, d, i, lists[d][i]);
    }
  }

  ghost predicate Unused(lists: Lists, id: Id) {
    forall d :: d in lists ==> !HasId(lists[d], id)
  }

  /** The turn's two ids differ, and no message that the turn keeps has either, in this or any other conversation. */
  ghost predicate Fresh(lists: Lists, c: Id, k: nat, t: Turn)
    requires c in lists && k <= |lists[c]|
  {
    var kept := lists[c := lists[c][..k]];
    t.userId != t.assistantId && Unused(kept, t.userId) && Unused(kept, t.assistantId)
  }

  lemma UnusedHasNoRow(rows: Rows, lists: Lists, id: Id)
    requires Represents(rows, lists)
    ensures Unused(lists, id) <==> id !in rows
  {
    if id in rows {
      assert Comes(id, rows[id], lists);
      assert HasId(lists[rows[id].conversation], id);
    }
    if !Unused(lists, id) {
      var d :| d in lists && HasId(lists[d], id);
      var i :| 0 <= i < |lists[d]| && lists[d][i].id == id;
      assert Stores(rows, d, i, lists[d][i]);
    }
  }

  /** With fresh ids the two upserts are the two pushes. */
  lemma FreshTurnIsPushes(rows: Rows, kept: Lists, c: Id, t: Turn)
    requires Represents(rows, kept) && c in kept
    requires t.userId != t.assistantId && Unused(kept, t.userId) && Unused(kept, t.assistantId)
    ensures var after := UpsertTurn(rows, c, |kept[c]|, t);
            after.Some? && Represents(after.value, kept[c := kept[c] + [UserMessage(t), AssistantMessage(t)]])
  {
    UnusedHasNoRow(rows, kept, t.userId);
    UnusedHasNoRow(rows, kept, t.assistantId);
    var u, a := UserMessage(t), AssistantMessage(t);
    var one, ones := rows[u.id := Row(c, |kept[c]| + 1, u)], kept[c := kept[c] + [u]];
    InsertIsPush(rows, kept, c, u);
    InsertIsPush(one, ones, c, a);
    assert ones[c := ones[c] + [a]] == kept[c := kept[c] + [u, a]] by {
      assert kept[c] + [u] + [a] == kept[c] + [u, a];
    }
  }

  /** Ids that are not fresh leave lists no table can represent. */
  lemma StaleTurnIsNowhere(rows: Rows, kept: Lists, c: Id, t: Turn)
    requires c in kept && Represents(rows, kept[c := kept[c] + [UserMessage(t), AssistantMessage(t)]])
    ensures t.userId != t.assistantId && Unused(kept, t.userId) && Unused(kept, t.assistantId)
  {
    var n := |kept[c]|;
    var after := kept[c := kept[c] + [UserMessage(t), AssistantMessage(t)]];
    assert after[c][n] == UserMessage(t) && after[c][n + 1] == AssistantMessage(t);
    assert Stores(rows, c, n, after[c][n]) && Stores(rows, c, n + 1, after[c][n + 1]);
    forall d, i | d in kept && 0 <= i < |kept[d]|
      ensures kept[d][i].id != t.userId && kept[d][i].id != t.assistantId
    {
      assert after[d][i] == kept[d][i];
      assert Stores(rows, d, i, after[d][i]);
    }
  }

  /** The forms refuse the same turns. A turn both take leaves them in agreement exactly when its ids are fresh. */
  lemma CommitAgrees(m: Memory, s: Tables, c: Id, t: Turn)
    requires Agree(m, s)
    ensures ListCommit(m, c, t).Err? ==> TableCommit(s, c, t) == Err(ListCommit(m, c, t).error)
    ensures ListCommit(m, c, t).Ok? ==>
              var k := Retained(m.messages[c], t.parent).value;
              var after := TableCommit(s, c, t);
              (after.Ok? && Agree(ListCommit(m, c, t).value, after.value)) <==> Fresh(m.messages, c, k, t)
  {
    if c in m.messages {
      ParentAgrees(s.rows, m.messages, c, t.parent);
      if ListCommit(m, c, t).Ok? {
        var k := Retained(m.messages[c], t.parent).value;
        CommitMatches(m, s, c, t, k, m.messages[c := m.messages[c][..k]]);
      }
    }
  }

  lemma CommitMatches(m: Memory, s: Tables, c: Id, t: Turn, k: nat, kept: Lists)
    requires Agree(m, s) && c in m.messages && Retained(m.messages[c], t.parent) == Some(k)
    requires ParentOrdinal(s.rows, c, t.parent) == Some(k) && kept == m.messages[c := m.messages[c][..k]]
    ensures var after := TableCommit(s, c, t);
            (after.Ok? && Agree(ListCommit(m, c, t).value, after.value)) <==> Fresh(m.messages, c, k, t)
  {
    var less := DeleteAbove(s.rows, c, k);
    var after := ListCommit(m, c, t).value.messages;
    DeleteIsTruncate(s.rows, m.messages, c, k);
    assert after == kept[c := kept[c] + [UserMessage(t), AssistantMessage(t)]];
    if Fresh(m.messages, c, k, t) {
      FreshTurnIsPushes(less, kept, c, t);
    } else if TableCommit(s, c, t).Ok? && Agree(ListCommit(m, c, t).value, TableCommit(s, c, t).value) {
      StaleTurnIsNowhere(TableCommit(s, c, t).value.rows, kept, c, t);
    }
  }

  // ------------------------------------------------------------------ whole histories

  datatype Op = Create(conversation: Id) | Commit(conversation: Id, turn: Turn)

  function ListStep(m: Memory, op: Op): Memory {
    match op
    case Create(c) => if c in m.messages then m else Memory(m.messages[c := []], m.next[c := 1])
    case Commit(c, t) => var r := ListCommit(m, c, t); if r.Ok? then r.value else m
  }

  function TableStep(s: Tables, op: Op): Tables {
    match op
    case Create(c) => if c in s.conversations then s else s.(conversations := s.conversations[c := 1])
    case Commit(c, t) => var r := TableCommit(s, c, t); if r.Ok? then r.value else s
  }

  const NO_LISTS := Memory(map[], map[])
  const NO_ROWS := Tables(map[], map[])

  function ListRun(ops: seq<Op>): Memory {
    if ops == [] then NO_LISTS else ListStep(ListRun(ops[..|ops| - 1]), ops[|ops| - 1])
  }

  function TableRun(ops: seq<Op>): Tables {
    if ops == [] then NO_ROWS else TableStep(TableRun(ops[..|ops| - 1]), ops[|ops| - 1])
  }

  ghost predicate FreshOp(m: Memory, op: Op) {
    op.Commit? && ListCommit(m, op.conversation, op.turn).Ok? ==>
      Fresh(m.messages, op.conversation, Retained(m.messages[op.conversation], op.turn.parent).value, op.turn)
  }

  ghost predicate FreshRun(ops: seq<Op>) {
    ops == [] || (FreshRun(ops[..|ops| - 1]) && FreshOp(ListRun(ops[..|ops| - 1]), ops[|ops| - 1]))
  }

  /** After every history of turns with fresh ids the two forms hold the same messages. */
  lemma {:induction false} HistoriesAgree(ops: seq<Op>)
    requires FreshRun(ops)
    ensures Agree(ListRun(ops), TableRun(ops))
  {
    if ops != [] {
      var n := |ops| - 1;
      HistoriesAgree(ops[..n]);
      StepAgrees(ListRun(ops[..n]), TableRun(ops[..n]), ops[n]);
    }
  }

  lemma StepAgrees(m: Memory, s: Tables, op: Op)
    requires Agree(m, s) && FreshOp(m, op)
    ensures Agree(ListStep(m, op), TableStep(s, op))
  {
    match op {
      case Create(c) =>
        if c !in m.messages {
          CreateAgrees(s.rows, m.messages, c);
        }
      case Commit(c, t) =>
        CommitAgrees(m, s, c, t);
    }
  }

  lemma CreateAgrees(rows: Rows, lists: Lists, c: Id)
    requires Represents(rows, lists) && c !in lists
    ensures Represents(rows, lists[c := []])
  {
    forall k | k in rows
      ensures Comes(k, rows[k], lists[c := []])
    {
      assert Comes(k, rows[k], lists);
    }
  }

  /** Every message answers the one before it, and the stored next ordinal is one past the last. */
  ghost predicate Chained(m: Memory) {
    && m.next.Keys == m.messages.Keys
    && forall c :: c in m.messages ==> Chain(m.messages[c]) && m.next[c] == |m.messages[c]| + 1
  }

  ghost function Before(ms: seq<Message>, i: nat): Option<Id>
    requires i <= |ms|
  {
    if i == 0 then None else Some(ms[i - 1].id)
  }

  ghost predicate Chain(ms: seq<Message>) {
    forall i :: 0 <= i < |ms| ==> ms[i].parent == Before(ms, i)
  }

  /** In every history whatever, fresh ids or not. */
  lemma {:induction false} HistoriesAreChained(ops: seq<Op>)
    ensures Chained(ListRun(ops))
  {
    if ops != [] {
      var n := |ops| - 1;
      HistoriesAreChained(ops[..n]);
      StepChains(ListRun(ops[..n]), ops[n], ListRun(ops));
    }
  }

  lemma StepChains(m: Memory, op: Op, after: Memory)
    requires Chained(m) && after == ListStep(m, op)
    ensures Chained(after)
  {
    if op.Commit? && op.conversation in m.messages {
      var c, t := op.conversation, op.turn;
      var ms := m.messages[c];
      match Retained(ms, t.parent) {
        case None =>
        case Some(k) =>
          assert Chain(ms);
          CommitChains(ms, k, t);
      }
    }
  }

  lemma CommitChains(ms: seq<Message>, k: nat, t: Turn)
    requires Chain(ms) && Retained(ms, t.parent) == Some(k)
    ensures Chain(ms[..k] + [UserMessage(t), AssistantMessage(t)])
  {
    var u, a := UserMessage(t), AssistantMessage(t);
    assert t.parent == Before(ms, k);
    HeadChains(ms, k);
    PushChains(ms[..k], u);
    PushChains(ms[..k] + [u], a);
    assert ms[..k] + [u] + [a] == ms[..k] + [u, a];
  }

  lemma HeadChains(ms: seq<Message>, k: nat)
    requires Chain(ms) && k <= |ms|
    ensures Chain(ms[..k]) && Before(ms[..k], k) == Before(ms, k)
  {
    assert forall i :: 0 <= i < k ==> ms[..k][i] == ms[i] && Before(ms[..k], i) == Before(ms, i);
  }

  lemma PushChains(ms: seq<Message>, m: Message)
    requires Chain(ms) && m.parent == Before(ms, |ms|)
    ensures Chain(ms + [m])
  {
    var more := ms + [m];
    forall i | 0 <= i < |more|
      ensures more[i].parent == Before(more, i)
    {
      assert Before(more, i) == Before(ms, i);
      assert i < |ms| ==> more[i] == ms[i];
    }
  }

  /** Committing the same turn again changes nothing. */
  lemma ListCommitTwice(m: Memory, c: Id, t: Turn)
    requires ListCommit(m, c, t).Ok?
    ensures ListCommit(ListCommit(m, c, t).value, c, t) == ListCommit(m, c, t)
  {
    var ms := m.messages[c];
    var k := Retained(ms, t.parent).value;
    var once := ms[..k] + [UserMessage(t), AssistantMessage(t)];
    var m1 := ListCommit(m, c, t).value;
    RetainsTheSame(ms, k, t.parent, once);
    assert once[..k] == ms[..k];
    assert m1.messages[c := once] == m1.messages && m1.next[c := |once| + 1] == m1.next;
  }

  lemma RetainsTheSame(ms: seq<Message>, k: nat, parent: Option<Id>, once: seq<Message>)
    requires Retained(ms, parent) == Some(k) && ms[..k] <= once
    ensures Retained(once, parent) == Some(k)
  {
    if parent.Some? {
      PositionIs(once, parent.value, k - 1);
    }
  }

  lemma {:induction false} PositionIs(ms: seq<Message>, id: Id, k: nat)
    requires k < |ms| && ms[k].id == id && forall m <- ms[..k] :: m.id != id
    ensures Position(ms, id) == Some(k)
  {
    if k > 0 {
      assert ms[..k][0] == ms[0];
      assert ms[1..][..k - 1] == ms[..k][1..];
      PositionIs(ms[1..], id, k - 1);
    }
  }

  /** Likewise for the table, when the turn's ids were fresh. */
  lemma TableCommitTwice(m: Memory, s: Tables, c: Id, t: Turn)
    requires Agree(m, s) && ListCommit(m, c, t).Ok?
    requires Fresh(m.messages, c, Retained(m.messages[c], t.parent).value, t)
    ensures TableCommit(s, c, t).Ok? && TableCommit(TableCommit(s, c, t).value, c, t) == TableCommit(s, c, t)
  {
    var ms := m.messages[c];
    var k := Retained(ms, t.parent).value;
    var m1 := ListCommit(m, c, t).value;
    CommitAgrees(m, s, c, t);
    ListCommitTwice(m, c, t);
    RetainsTheSame(ms, k, t.parent, m1.messages[c]);
    assert m1.messages[c := m1.messages[c][..k]] == m.messages[c := ms[..k]] by {
      assert m1.messages[c][..k] == ms[..k];
    }
    var s1 := TableCommit(s, c, t).value;
    CommitAgrees(m1, s1, c, t);
    TablesAreDetermined(s1.rows, TableCommit(s1, c, t).value.rows, m1.messages);
  }

  /** Lists determine their table. */
  lemma TablesAreDetermined(a: Rows, b: Rows, lists: Lists)
    requires Represents(a, lists) && Represents(b, lists)
    ensures a == b
  {
    RowsAreIn(a, b, lists);
    RowsAreIn(b, a, lists);
  }

  lemma RowsAreIn(a: Rows, b: Rows, lists: Lists)
    requires Represents(a, lists) && Represents(b, lists)
    ensures forall k :: k in a ==> k in b && a[k] == b[k]
  {
    forall k | k in a
      ensures k in b && a[k] == b[k]
    {
      assert Comes(k, a[k], lists);
      var c, i := a[k].conversation, a[k].ordinal - 1;
      assert Stores(a, c, i, lists[c][i]) && Stores(b, c, i, lists[c][i]);
    }
  }

  // ------------------------------------------------------------------ reading in ordinal order

  /** `out` is the conversation's rows in ascending order of ordinal. */
  ghost predicate InOrder(rows: Rows, c: Id, out: seq<Row>) {
    Rising(out) && forall r :: r in out <==> IsRow(rows, c, r)
  }

  ghost predicate IsRow(rows: Rows, c: Id, r: Row) {
    r.message.id in rows && rows[r.message.id] == r && r.conversation == c
  }

  /** The relational form, read in order of ordinal after a turn with fresh ids: the turn's two messages follow what
      it kept, at the ordinals after it, and the stored next ordinal is one past them. */
  lemma TableStoresTurn(m: Memory, s: Tables, c: Id, t: Turn, out: seq<Row>)
    requires Agree(m, s) && ListCommit(m, c, t).Ok?
    requires Fresh(m.messages, c, Retained(m.messages[c], t.parent).value, t)
    requires TableCommit(s, c, t).Ok? ==> InOrder(TableCommit(s, c, t).value.rows, c, out)
    ensures TableCommit(s, c, t).Ok?
    ensures TurnStored(m.messages[c], Messages(out), t)
    ensures forall i :: 0 <= i < |out| ==> out[i].ordinal == i + 1 && out[i].conversation == c
    ensures TableCommit(s, c, t).value.conversations == s.conversations[c := |out| + 1]
  {
    CommitAgrees(m, s, c, t);
    ListCommitIs(m, c, t);
    ReadsTurn(m.messages[c], ListCommit(m, c, t).value, TableCommit(s, c, t).value, c, t, out);
  }

  lemma ReadsTurn(before: seq<Message>, m: Memory, s: Tables, c: Id, t: Turn, out: seq<Row>)
    requires Agree(m, s) && c in m.messages && TurnStored(before, m.messages[c], t) && InOrder(s.rows, c, out)
    ensures TurnStored(before, Messages(out), t) && |out| == |m.messages[c]|
    ensures forall i :: 0 <= i < |out| ==> out[i].ordinal == i + 1 && out[i].conversation == c
  {
    ReadIsTheList(s.rows, m.messages, c, out);
    assert Messages(out) == m.messages[c];
  }

  function Messages(out: seq<Row>): seq<Message> {
    seq(|out|, i requires 0 <= i < |out| => out[i].message)
  }

  /** A message id that is already stored, anywhere in the tenant, is not stored a second time: its row stays in its own
      conversation under its own role, and takes the new text, parent, turn and place there. */
  lemma CollisionRewrites(rows: Rows, row: Row)
    requires row.message.id in rows && Upsert(rows, row).Some?
    ensures var id := row.message.id;
            var was, put, after := rows[id], row.message, Upsert(rows, row).value[id];
            && after.conversation == was.conversation && after.ordinal == row.ordinal
            && after.message.id == was.message.id && after.message.role == was.message.role
            && after.message.content == put.content && after.message.parent == put.parent
            && after.message.turnId == put.turnId
            && (put.role.User? ==>
                  && after.message.citations == was.message.citations
                  && after.message.interrupted == was.message.interrupted
                  && after.message.finishReason == was.message.finishReason)
            && (put.role.Assistant? ==>
                  && after.message.citations == put.citations && after.message.interrupted == put.interrupted
                  && after.message.finishReason == put.finishReason)
    ensures Upsert(rows, row).value - {row.message.id} == rows - {row.message.id}
  {
  }

  /** An upsert is refused exactly when another row of the conversation already has the ordinal. */
  lemma UpsertRefuses(rows: Rows, row: Row)
    ensures Upsert(rows, row).None? <==>
            var c := if row.message.id in rows then rows[row.message.id].conversation else row.conversation;
            exists k :: k in rows && k != row.message.id && rows[k].conversation == c && rows[k].ordinal == row.ordinal
  {
  }

  /** Reading the table in order of ordinal gives the list, numbered from 1. */
  lemma ReadIsTheList(rows: Rows, lists: Lists, c: Id, out: seq<Row>)
    requires Represents(rows, lists) && c in lists
    ensures InOrder(rows, c, out) <==>
            |out| == |lists[c]| && forall i :: 0 <= i < |out| ==> out[i] == Row(c, i + 1, lists[c][i])
  {
    var want := seq(|lists[c]|, i requires 0 <= i < |lists[c]| => Row(c, i + 1, lists[c][i]));
    forall r
      ensures r in want <==> IsRow(rows, c, r)
    {
      RowsOfConversation(rows, lists, c, want, r);
    }
    if |out| == |lists[c]| && forall i :: 0 <= i < |out| ==> out[i] == Row(c, i + 1, lists[c][i]) {
      assert out == want;
    }
    if InOrder(rows, c, out) {
      OrderIsUnique(out, want);
    }
  }

  lemma RowsOfConversation(rows: Rows, lists: Lists, c: Id, want: seq<Row>, r: Row)
    requires Represents(rows, lists) && c in lists && |want| == |lists[c]|
    requires forall i :: 0 <= i < |want| ==> want[i] == Row(c, i + 1, lists[c][i])
    ensures r in want <==> IsRow(rows, c, r)
  {
    if r in want {
      var i :| 0 <= i < |want| && want[i] == r;
      assert Stores(rows, c, i, lists[c][i]);
    }
    if IsRow(rows, c, r) {
      assert Comes(r.message.id, r, lists);
      assert Stores(rows, c, r.ordinal - 1, lists[c][r.ordinal - 1]);
      assert want[r.ordinal - 1] == r;
    }
  }

  ghost predicate Rising(s: seq<Row>) {
    forall i, j :: 0 <= i < j < |s| ==> s[i].ordinal < s[j].ordinal
  }

  lemma {:induction false} OrderIsUnique(a: seq<Row>, b: seq<Row>)
    requires Rising(a) && Rising(b) && forall r :: r in a <==> r in b
    ensures a == b
  {
    assert (a != [] ==> a[0] in b) && (b != [] ==> b[0] in a);
    if a != [] && b != [] {
      HeadIsLeast(a, b[0]);
      HeadIsLeast(b, a[0]);
      TailRises(a);
      TailRises(b);
      OrderIsUnique(a[1..], b[1..]);
      assert a == [a[0]] + a[1..] && b == [b[0]] + b[1..];
    }
  }

  lemma HeadIsLeast(a: seq<Row>, r: Row)
    requires Rising(a) && r in a
    ensures r == a[0] || a[0].ordinal < r.ordinal
  {
  }

  lemma TailRises(a: seq<Row>)
    requires Rising(a) && a != []
    ensures Rising(a[1..])
    ensures forall r :: r in a[1..] <==> r in a && r != a[0]
  {
    assert a == [a[0]] + a[1..];
  }
}
