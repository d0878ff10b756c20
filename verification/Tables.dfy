/** The six tables and what each SQL statement does to them.

    A table is a sequence of rows in ascending id order, together with the largest id handed out
    so far (SQLite's AUTOINCREMENT counter).  Rows are never deleted.  Ids may skip values: a
    statement that fails can use one up, so every insert takes the size of the gap as an input.
    Nullable text columns hold "" for NULL, as nullableText and fromNullableText exchange them. */
module Tables {
  import opened Wrappers

  // ---------------------------------------------------------------- selecting

  /** SELECT ... WHERE keep ORDER BY id LIMIT limit. */
  function Select<R>(rows: seq<R>, keep: R -> bool, limit: nat): (out: seq<R>)
    ensures |out| <= limit
    ensures forall r :: r in out ==> r in rows && keep(r)
  {
    if rows == [] || limit == 0 then []
    else if keep(rows[0]) then [rows[0]] + Select(rows[1..], keep, limit - 1)
    else Select(rows[1..], keep, limit)
  }

  /** The loop over a result set. */
  method Query<R>(rows: seq<R>, keep: R -> bool, limit: nat) returns (out: seq<R>)
    ensures out == Select(rows, keep, limit)
  {
    out := [];
    var i := 0;
    while i < |rows| && |out| < limit
      invariant 0 <= i <= |rows| && |out| <= limit
      invariant Select(rows, keep, limit) == out + Select(rows[i..], keep, limit - |out|)
    {
      assert rows[i..] == [rows[i]] + rows[i + 1..];
      if keep(rows[i]) {
        assert out + ([rows[i]] + Select(rows[i + 1..], keep, limit - |out| - 1))
            == (out + [rows[i]]) + Select(rows[i + 1..], keep, limit - |out| - 1);
        out := out + [rows[i]];
      }
      i := i + 1;
    }
    assert Select(rows[i..], keep, limit - |out|) == [];
  }

  /** Fewer rows than the limit means that none was left out. */
  lemma {:induction false} SelectComplete<R>(rows: seq<R>, keep: R -> bool, limit: nat)
    ensures |Select(rows, keep, limit)| < limit ==> forall r :: r in rows && keep(r) ==> r in Select(rows, keep, limit)
  {
    if rows != [] && limit > 0 {
      SelectComplete(rows[1..], keep, if keep(rows[0]) then limit - 1 else limit);
      assert rows == [rows[0]] + rows[1..];
    }
  }

  /** A selection is in id order, and what it leaves out comes after it. */
  lemma {:induction false} SelectOrdered<R>(rows: seq<R>, keep: R -> bool, limit: nat, id: R -> int)
    requires forall i, j :: 0 <= i < j < |rows| ==> id(rows[i]) < id(rows[j])
    ensures forall i, j :: 0 <= i < j < |Select(rows, keep, limit)| ==> id(Select(rows, keep, limit)[i]) < id(Select(rows, keep, limit)[j])
    ensures forall r, x :: r in rows && keep(r) && r !in Select(rows, keep, limit) && x in Select(rows, keep, limit) ==> id(x) < id(r)
  {
    if rows != [] && limit > 0 {
      var limit' := if keep(rows[0]) then limit - 1 else limit;
      SelectOrdered(rows[1..], keep, limit', id);
      assert rows == [rows[0]] + rows[1..];
    }
  }

  /** out is what a listing of the wanted rows shows: wanted rows only, in id order, at most so many,
      and what is left out comes after a full page. */
  ghost predicate ListsFirst<R>(rows: seq<R>, out: seq<R>, wanted: R -> bool, id: R -> int, most: int) {
    && |out| <= most && (forall r :: r in out ==> r in rows && wanted(r))
    && (forall i, j :: 0 <= i < j < |out| ==> id(out[i]) < id(out[j]))
    && (forall r :: r in rows && wanted(r) && r !in out ==> |out| == most && forall x :: x in out ==> id(x) < id(r))
  }

  lemma {:induction false} SelectLists<R>(rows: seq<R>, keep: R -> bool, wanted: R -> bool, id: R -> int, limit: nat)
    requires forall i, j :: 0 <= i < j < |rows| ==> id(rows[i]) < id(rows[j])
    requires forall r :: r in rows ==> (keep(r) <==> wanted(r))
    ensures ListsFirst(rows, Select(rows, keep, limit), wanted, id, limit)
  {
    SelectOrdered(rows, keep, limit, id);
    SelectComplete(rows, keep, limit);
  }

  /** SELECT COUNT(1) ... WHERE keep. */
  function Count<R>(rows: seq<R>, keep: R -> bool): (n: nat)
    ensures n <= |rows|
  {
    if rows == [] then 0 else (if keep(rows[0]) then 1 else 0) + Count(rows[1..], keep)
  }

  lemma {:induction false} SelectCount<R>(rows: seq<R>, keep: R -> bool, limit: nat)
    ensures |Select(rows, keep, limit)| == if Count(rows, keep) <= limit then Count(rows, keep) else limit
  {
    if rows != [] && limit > 0 {
      SelectCount(rows[1..], keep, if keep(rows[0]) then limit - 1 else limit);
    }
  }

  lemma {:induction false} CountSplit<R>(a: seq<R>, b: seq<R>, keep: R -> bool)
    ensures Count(a + b, keep) == Count(a, keep) + Count(b, keep)
  {
    if a == [] {
      assert a + b == b;
    } else {
      assert (a + b)[1..] == a[1..] + b;
      CountSplit(a[1..], b, keep);
    }
  }

  lemma {:induction false} CountGrows<R, S>(a: seq<R>, b: seq<S>, keep: R -> bool, keep': S -> bool)
    requires |a| == |b| && forall i :: 0 <= i < |a| && keep(a[i]) ==> keep'(b[i])
    ensures Count(a, keep) <= Count(b, keep')
  {
    if a != [] {
      assert keep(a[0]) ==> keep'(b[0]);
      forall i | 0 <= i < |a[1..]| && keep(a[1..][i]) ensures keep'(b[1..][i]) {
        assert keep(a[i + 1]);
      }
      CountGrows(a[1..], b[1..], keep, keep');
    }
  }

  lemma {:induction false} CountHit<R>(rows: seq<R>, keep: R -> bool, i: nat)
    requires i < |rows| && keep(rows[i])
    ensures Count(rows, keep) > 0
  {
    CountSplit(rows[..i], rows[i..], keep);
    assert rows == rows[..i] + rows[i..];
  }

  lemma {:induction false} CountNoHit<R>(rows: seq<R>, keep: R -> bool)
    requires forall r :: r in rows ==> !keep(r)
    ensures Count(rows, keep) == 0
  {
    if rows != [] {
      assert rows[0] in rows && forall r :: r in rows[1..] ==> r in rows;
      CountNoHit(rows[1..], keep);
    }
  }

  lemma {:induction false} CountAll<R>(rows: seq<R>, keep: R -> bool)
    requires forall i :: 0 <= i < |rows| ==> keep(rows[i])
    ensures Count(rows, keep) == |rows|
  {
    if rows != [] {
      CountAll(rows[1..], keep);
    }
  }

  /** What a count leaves out, its complement counts. */
  lemma {:induction false} CountComplement<R>(rows: seq<R>, keep: R -> bool, drop: R -> bool)
    requires forall i :: 0 <= i < |rows| ==> keep(rows[i]) != drop(rows[i])
    ensures Count(rows, keep) + Count(rows, drop) == |rows|
  {
    if rows != [] {
      CountComplement(rows[1..], keep, drop);
    }
  }

  /** Enough hits in a prefix, and the selection never looks past it. */
  lemma {:induction false} SelectFromPrefix<R>(rows: seq<R>, k: nat, keep: R -> bool, limit: nat)
    requires k <= |rows| && limit <= Count(rows[..k], keep)
    ensures Select(rows, keep, limit) == Select(rows[..k], keep, limit)
  {
    if limit > 0 {
      assert k > 0 && rows[..k][1..] == rows[1..][..k - 1];
      SelectFromPrefix(rows[1..], k - 1, keep, if keep(rows[0]) then limit - 1 else limit);
    }
  }

  /** With fewer hits before it than the limit, a hit is selected. */
  lemma {:induction false} SelectReaches<R>(rows: seq<R>, k: nat, keep: R -> bool, limit: nat)
    requires k < |rows| && keep(rows[k]) && Count(rows[..k], keep) < limit
    ensures rows[k] in Select(rows, keep, limit)
  {
    if k > 0 {
      assert rows[..k][1..] == rows[1..][..k - 1];
      SelectReaches(rows[1..], k - 1, keep, if keep(rows[0]) then limit - 1 else limit);
    }
  }

  /** The first index of a row that is hit, or the number of rows. */
  function IndexOf<R>(rows: seq<R>, hit: R -> bool): (n: nat)
    ensures n <= |rows| && (n < |rows| ==> hit(rows[n]))
    ensures forall j :: 0 <= j < n ==> !hit(rows[j])
  {
    if rows == [] || hit(rows[0]) then 0 else 1 + IndexOf(rows[1..], hit)
  }

  // --------------------------------------------------------------------- rows

  datatype EventState = New | Pushed | Consumed

  datatype Event = Event(
    seqNo: int, eventId: string, peerId: string, messageId: string, msgTs: int, hash: string,
    unreadCount: int, preview: string, payload: string, state: EventState, source: string,
    a2aMessageId: string, targetSessionId: string, targetSessionKey: string, createdAt: int, updatedAt: int)

  datatype Status = Pending | Retry | Sent | Acked | Failed

  datatype PushRow = PushRow(
    id: int, eventId: string, target: string, attempt: int, nextRetryAt: int, status: Status,
    lastError: string, createdAt: int, updatedAt: int)

  datatype A2ARow = A2ARow(
    id: int, messageId: string, traceId: string, targetAgentId: string, messageType: string, qos: int,
    envelope: string, sourceSessionId: string, sourceSessionKey: string, status: Status, attempt: int,
    nextRetryAt: int, lastError: string, createdAt: int, updatedAt: int)

  datatype MediaRow = MediaRow(
    id: int, eventId: string, sessionKey: string, channel: string, toTarget: string, accountId: string,
    threadId: string, messageText: string, mediaUrl: string, status: Status, attempt: int,
    nextRetryAt: int, lastError: string, createdAt: int, updatedAt: int)

  datatype Route = Route(sessionId: string, sessionKey: string, source: string, updatedAt: int)

  /** acks maps (consumer, event id) to acked_at; routes maps peer to its session. */
  datatype Db = Db(
    events: seq<Event>, eventSeq: int,
    acks: map<(string, string), int>,
    push: seq<PushRow>, pushSeq: int,
    a2a: seq<A2ARow>, a2aSeq: int,
    media: seq<MediaRow>, mediaSeq: int,
    routes: map<string, Route>)

  const EMPTY := Db([], 0, map[], [], 0, [], 0, [], 0, map[])

  function EventAt(events: seq<Event>, eventId: string): (n: nat)
    ensures n <= |events| && (n < |events| ==> events[n].eventId == eventId)
    ensures forall j :: 0 <= j < n ==> events[j].eventId != eventId
  {
    IndexOf(events, (e: Event) => e.eventId == eventId)
  }

  function PushOf(push: seq<PushRow>, eventId: string): (n: nat)
    ensures n <= |push| && (n < |push| ==> push[n].eventId == eventId)
    ensures forall j :: 0 <= j < n ==> push[j].eventId != eventId
  {
    IndexOf(push, (r: PushRow) => r.eventId == eventId)
  }

  function PushAt(push: seq<PushRow>, id: int): (n: nat)
    ensures n <= |push| && (n < |push| ==> push[n].id == id)
    ensures forall j :: 0 <= j < n ==> push[j].id != id
  {
    IndexOf(push, (r: PushRow) => r.id == id)
  }

  function A2AAt(a2a: seq<A2ARow>, id: int): (n: nat)
    ensures n <= |a2a| && (n < |a2a| ==> a2a[n].id == id)
    ensures forall j :: 0 <= j < n ==> a2a[j].id != id
  {
    IndexOf(a2a, (r: A2ARow) => r.id == id)
  }

  function MediaAt(media: seq<MediaRow>, id: int): (n: nat)
    ensures n <= |media| && (n < |media| ==> media[n].id == id)
    ensures forall j :: 0 <= j < n ==> media[j].id != id
  {
    IndexOf(media, (r: MediaRow) => r.id == id)
  }

  // ------------------------------------------------------------------- events

  datatype EventInput = EventInput(
    eventId: string, peerId: string, messageId: string, msgTs: int, hash: string, unreadCount: int,
    preview: string, payload: string, state: EventState, source: string, a2aMessageId: string,
    targetSessionId: string, targetSessionKey: string, createdAt: int, pushEnabled: bool, pushTarget: string)

  datatype InsertReason = NoReason | EventExists | PushOutboxConflict

  datatype InsertResult = InsertResult(created: bool, eventId: string, reason: InsertReason)

  /** The unique indexes of message_event. */
  predicate Clashes(e: Event, x: EventInput) {
    || e.eventId == x.eventId
    || (x.messageId != "" && e.messageId == x.messageId)
    || (e.peerId == x.peerId && e.hash == x.hash)
    || (x.a2aMessageId != "" && e.a2aMessageId == x.a2aMessageId)
  }

  predicate EventClash(events: seq<Event>, x: EventInput) {
    exists i :: 0 <= i < |events| && Clashes(events[i], x)
  }

  function NewEvent(x: EventInput, seqNo: int, ts: int): Event {
    Event(seqNo, x.eventId, x.peerId, x.messageId, x.msgTs, x.hash, x.unreadCount, x.preview, x.payload,
          x.state, x.source, x.a2aMessageId, x.targetSessionId, x.targetSessionKey,
          if x.createdAt == 0 then ts else x.createdAt, ts)
  }

  function NewPush(x: EventInput, id: int, ts: int): PushRow {
    PushRow(id, x.eventId, x.pushTarget, 0, ts, Pending, "", ts, ts)
  }

  function InsertOutcome(db: Db, x: EventInput): InsertReason {
    if EventClash(db.events, x) then EventExists
    else if x.pushEnabled && PushOf(db.push, x.eventId) < |db.push| then PushOutboxConflict
    else NoReason
  }

  function AddEvent(db: Db, x: EventInput, gap: nat, ts: int): Db {
    db.(events := db.events + [NewEvent(x, db.eventSeq + 1 + gap, ts)], eventSeq := db.eventSeq + 1 + gap)
  }

  function AddPush(db: Db, x: EventInput, gap: nat, ts: int): Db {
    db.(push := db.push + [NewPush(x, db.pushSeq + 1 + gap, ts)], pushSeq := db.pushSeq + 1 + gap)
  }

  /** Both inserts of the transaction, or neither. */
  function InsertEvent(db: Db, x: EventInput, gap: nat, pushGap: nat, ts: int): Db {
    if InsertOutcome(db, x) != NoReason then db
    else if x.pushEnabled then AddPush(AddEvent(db, x, gap, ts), x, pushGap, ts)
    else AddEvent(db, x, gap, ts)
  }

  function SetEvent(db: Db, n: nat, e: Event): Db
    requires n < |db.events|
  {
    db.(events := db.events[n := e])
  }

  /** UPDATE message_event SET state, updated_at WHERE event_id. */
  function SetEventState(db: Db, eventId: string, state: EventState, ts: int): Db {
    var n := EventAt(db.events, eventId);
    if n < |db.events| then SetEvent(db, n, db.events[n].(state := state, updatedAt := ts)) else db
  }

  function SetTargetSession(db: Db, eventId: string, sessionId: string, sessionKey: string, ts: int): Db {
    var n := EventAt(db.events, eventId);
    if n < |db.events| then
      SetEvent(db, n, db.events[n].(targetSessionId := sessionId, targetSessionKey := sessionKey, updatedAt := ts))
    else db
  }

  // ------------------------------------------------------------------- routes

  datatype BindReason = Bound | MissingPeer | MissingRef | Stale | EventNotFound | MissingEvent

  /** What BindPeerSession answers for the peer's current route. */
  function BindOutcome(current: Option<Route>, peerId: string, sessionId: string, sessionKey: string, updatedAt: int): BindReason {
    if peerId == "" then MissingPeer
    else if sessionId == "" && sessionKey == "" then MissingRef
    else if current.Some? && current.value.updatedAt > updatedAt then Stale
    else Bound
  }

  /** The new route: what the bind names, and the current route's value where it names nothing. */
  function Merge(current: Option<Route>, sessionId: string, sessionKey: string, source: string, updatedAt: int): Route {
    var oldId, oldKey := if current.Some? then current.value.sessionId else "", if current.Some? then current.value.sessionKey else "";
    Route(if sessionId == "" then oldId else sessionId, if sessionKey == "" then oldKey else sessionKey, source, updatedAt)
  }

  function RouteOf(db: Db, peerId: string): Option<Route> {
    if peerId in db.routes then Some(db.routes[peerId]) else None
  }

  function BindPeer(db: Db, peerId: string, sessionId: string, sessionKey: string, source: string, updatedAt: int): Db {
    var current := RouteOf(db, peerId);
    if BindOutcome(current, peerId, sessionId, sessionKey, updatedAt) == Bound
    then db.(routes := db.routes[peerId := Merge(current, sessionId, sessionKey, source, updatedAt)])
    else db
  }

  function BindForEventOutcome(db: Db, eventId: string, sessionId: string, sessionKey: string, updatedAt: int): BindReason {
    var n := EventAt(db.events, eventId);
    if eventId == "" then MissingEvent
    else if n == |db.events| || db.events[n].peerId == "" then EventNotFound
    else BindOutcome(RouteOf(db, db.events[n].peerId), db.events[n].peerId, sessionId, sessionKey, updatedAt)
  }

  function BindForEvent(db: Db, eventId: string, sessionId: string, sessionKey: string, source: string, updatedAt: int): Db {
    var n := EventAt(db.events, eventId);
    if eventId == "" || n == |db.events| || db.events[n].peerId == "" then db
    else BindPeer(db, db.events[n].peerId, sessionId, sessionKey, source, updatedAt)
  }

  // --------------------------------------------------------------------- acks

  datatype Binding = Binding(sessionId: string, sessionKey: string, source: string)

  datatype AckReason = NoEvent | AlreadyAcked | MissingSessionRef | Bind(reason: BindReason)

  datatype AckResult = AckResult(found: bool, ackedAt: int, inserted: bool, routeBound: bool, reason: AckReason)

  predicate HasRef(b: Option<Binding>) {
    b.Some? && (b.value.sessionId != "" || b.value.sessionKey != "")
  }

  /** The transaction: INSERT OR IGNORE the ack, then mark the event consumed. */
  function RecordAck(db: Db, consumer: string, eventId: string, ts: int): Db {
    var db' := if (consumer, eventId) in db.acks then db else db.(acks := db.acks[(consumer, eventId) := ts]);
    SetEventState(db', eventId, Consumed, ts)
  }

  /** The timestamp an ack binds its route with. */
  function BindTime(e: Event): int {
    if e.msgTs == 0 then e.createdAt else e.msgTs
  }

  function AckEvent(db: Db, consumer: string, eventId: string, b: Option<Binding>, ts: int): Db {
    var n := EventAt(db.events, eventId);
    if n == |db.events| then db
    else
      var db' := RecordAck(db, consumer, eventId, ts);
      if (consumer, eventId) !in db.acks && HasRef(b)
      then BindForEvent(db', eventId, b.value.sessionId, b.value.sessionKey, b.value.source, BindTime(db.events[n]))
      else db'
  }

  function AckOutcome(db: Db, consumer: string, eventId: string, b: Option<Binding>, ts: int): AckResult {
    var n := EventAt(db.events, eventId);
    if n == |db.events| then AckResult(false, 0, false, false, NoEvent)
    else if (consumer, eventId) in db.acks then AckResult(true, db.acks[(consumer, eventId)], false, false, AlreadyAcked)
    else if !HasRef(b) then AckResult(true, ts, true, false, MissingSessionRef)
    else
      var reason := BindForEventOutcome(db, eventId, b.value.sessionId, b.value.sessionKey, BindTime(db.events[n]));
      AckResult(true, ts, true, reason == Bound, Bind(reason))
  }

  // -------------------------------------------------------------- push outbox

  function SetPush(db: Db, n: nat, r: PushRow): Db
    requires n < |db.push|
  {
    db.(push := db.push[n := r])
  }

  function PushSentRow(db: Db, id: int, deadline: int, ts: int): Db {
    var n := PushAt(db.push, id);
    if n < |db.push| then SetPush(db, n, db.push[n].(status := Sent, nextRetryAt := deadline, updatedAt := ts, lastError := "")) else db
  }

  function PushAckedRow(db: Db, id: int, ts: int): Db {
    var n := PushAt(db.push, id);
    if n < |db.push| then SetPush(db, n, db.push[n].(status := Acked, updatedAt := ts, lastError := "")) else db
  }

  function MarkPushSent(db: Db, id: int, eventId: string, deadline: int, ts: int): Db {
    SetEventState(PushSentRow(db, id, deadline, ts), eventId, Pushed, ts)
  }

  function MarkPushAcked(db: Db, id: int, eventId: string, ts: int): Db {
    SetEventState(PushAckedRow(db, id, ts), eventId, Consumed, ts)
  }

  function MarkPushRetry(db: Db, id: int, attempt: int, nextRetryAt: int, error: string, ts: int): Db {
    var n := PushAt(db.push, id);
    if n < |db.push| then
      SetPush(db, n, db.push[n].(status := Retry, attempt := attempt, nextRetryAt := nextRetryAt, updatedAt := ts, lastError := Truncate(error)))
    else db
  }

  function Truncate(s: string): (t: string)
    ensures t <= s && |t| == if |s| < 1000 then |s| else 1000
  {
    if |s| <= 1000 then s else s[..1000]
  }

  predicate Open(status: Status) {
    status == Pending || status == Retry
  }

  /** The JOIN with message_event and the status filter of the two listings. */
  function SentPush(events: seq<Event>): PushRow -> bool {
    (r: PushRow) => r.status == Sent && EventAt(events, r.eventId) < |events|
  }

  function DuePush(events: seq<Event>, now: int): PushRow -> bool {
    (r: PushRow) => Open(r.status) && r.nextRetryAt <= now && EventAt(events, r.eventId) < |events|
  }

  // --------------------------------------------------------------- a2a outbox

  datatype A2AInput = A2AInput(
    messageId: string, traceId: string, targetAgentId: string, messageType: string, qos: int,
    envelope: string, sourceSessionId: string, sourceSessionKey: string)

  predicate A2AKnown(a2a: seq<A2ARow>, messageId: string) {
    exists i :: 0 <= i < |a2a| && a2a[i].messageId == messageId
  }

  function NewA2A(x: A2AInput, id: int, ts: int): A2ARow {
    A2ARow(id, x.messageId, x.traceId, x.targetAgentId, x.messageType, x.qos, x.envelope,
           x.sourceSessionId, x.sourceSessionKey, Pending, 0, ts, "", ts, ts)
  }

  datatype EnqueueResult = Enqueued | AlreadyQueued | MissingMessageId

  function EnqueueOutcome(db: Db, x: A2AInput): EnqueueResult {
    if x.messageId == "" then MissingMessageId else if A2AKnown(db.a2a, x.messageId) then AlreadyQueued else Enqueued
  }

  function Enqueue(db: Db, x: A2AInput, gap: nat, ts: int): Db {
    if x.messageId == "" || A2AKnown(db.a2a, x.messageId) then db
    else
      var id := db.a2aSeq + 1 + gap;
      db.(a2a := db.a2a + [NewA2A(x, id, ts)], a2aSeq := id)
  }

  function SetA2A(db: Db, n: nat, r: A2ARow): Db
    requires n < |db.a2a|
  {
    db.(a2a := db.a2a[n := r])
  }

  function A2ASentRow(db: Db, id: int, ts: int): Db {
    var n := A2AAt(db.a2a, id);
    if n < |db.a2a| then SetA2A(db, n, db.a2a[n].(status := Sent, updatedAt := ts, lastError := "")) else db
  }

  /** The bind that follows the SENT update; r is the row as read before it. */
  function BindSent(db: Db, r: A2ARow, ts: int): Db {
    if r.targetAgentId == "" then db
    else BindPeer(db, r.targetAgentId, r.sourceSessionId, r.sourceSessionKey, "a2a-send", if r.createdAt == 0 then ts else r.createdAt)
  }

  function MarkA2ARetry(db: Db, id: int, attempt: int, nextRetryAt: int, error: string, ts: int): Db {
    var n := A2AAt(db.a2a, id);
    if n < |db.a2a| then
      SetA2A(db, n, db.a2a[n].(status := Retry, attempt := attempt, nextRetryAt := nextRetryAt, updatedAt := ts, lastError := Truncate(error)))
    else db
  }

  function DueA2A(now: int): A2ARow -> bool {
    (r: A2ARow) => Open(r.status) && r.nextRetryAt <= now
  }

  // ------------------------------------------------------------- media outbox

  datatype MediaInput = MediaInput(
    eventId: string, sessionKey: string, channel: string, to: string, accountId: string,
    threadId: string, messageText: string, mediaUrl: string)

  predicate MediaKnown(media: seq<MediaRow>, eventId: string) {
    exists i :: 0 <= i < |media| && media[i].eventId == eventId
  }

  function NewMedia(x: MediaInput, id: int, ts: int): MediaRow {
    MediaRow(id, x.eventId, x.sessionKey, x.channel, x.to, x.accountId, x.threadId, x.messageText, x.mediaUrl,
             Pending, 0, ts, "", ts, ts)
  }

  function EnqueueMedia(db: Db, x: MediaInput, gap: nat, ts: int): Db {
    if MediaKnown(db.media, x.eventId) then db
    else
      var id := db.mediaSeq + 1 + gap;
      db.(media := db.media + [NewMedia(x, id, ts)], mediaSeq := id)
  }

  function SetMedia(db: Db, n: nat, r: MediaRow): Db
    requires n < |db.media|
  {
    db.(media := db.media[n := r])
  }

  function MarkMediaSent(db: Db, id: int, ts: int): Db {
    var n := MediaAt(db.media, id);
    if n < |db.media| then SetMedia(db, n, db.media[n].(status := Sent, updatedAt := ts, lastError := "")) else db
  }

  function MarkMediaRetry(db: Db, id: int, attempt: int, nextRetryAt: int, error: string, ts: int): Db {
    var n := MediaAt(db.media, id);
    if n < |db.media| then
      SetMedia(db, n, db.media[n].(status := Retry, attempt := attempt, nextRetryAt := nextRetryAt, updatedAt := ts, lastError := Truncate(error)))
    else db
  }

  function MarkMediaFailed(db: Db, id: int, error: string, ts: int): Db {
    var n := MediaAt(db.media, id);
    if n < |db.media| then SetMedia(db, n, db.media[n].(status := Failed, updatedAt := ts, lastError := Truncate(error))) else db
  }

  function DueMedia(now: int): MediaRow -> bool {
    (r: MediaRow) => Open(r.status) && r.nextRetryAt <= now
  }
}
