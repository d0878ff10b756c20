/** The event store: one object over the six tables, one method per store call. */
module Store {
  import opened Wrappers
  import opened Tables
  import opened Schema
  import opened Inbox
  import System
  import Routes
  import R = ReplyRoutes

  /** UPDATE ... WHERE id touches the one row with that id. */
  lemma {:induction false} RowsById(db: Db, id: int, eventId: string)
    ensures Wf(db) ==> forall i :: 0 <= i < |db.push| ==> (db.push[i].id == id <==> i == PushAt(db.push, id))
    ensures Wf(db) ==> forall i :: 0 <= i < |db.events| ==> (db.events[i].eventId == eventId <==> i == EventAt(db.events, eventId))
    ensures Wf(db) ==> forall i :: 0 <= i < |db.a2a| ==> (db.a2a[i].id == id <==> i == A2AAt(db.a2a, id))
    ensures Wf(db) ==> forall i :: 0 <= i < |db.media| ==> (db.media[i].id == id <==> i == MediaAt(db.media, id))
  {
    hide PushReferences, AckReferences;
  }

  lemma {:induction false} RowsHaveEvents(db: Db)
    ensures Wf(db) ==> forall i :: 0 <= i < |db.push| ==> EventAt(db.events, db.push[i].eventId) < |db.events|
  {
    assert Wf(db) ==> forall i :: 0 <= i < |db.push| ==> Known(db.events, db.push[i].eventId);
  }

  lemma {:induction false} KnownIffListed(events: seq<Event>, eventId: string)
    ensures EventAt(events, eventId) < |events| <==> exists e :: e in events && e.eventId == eventId
  {
  }

  lemma {:induction false} CountsAddUp(db: Db, consumer: string)
    ensures Wf(db) ==> Count(db.events, Unread(db.acks, consumer)) + |AckedBy(db.acks, consumer)| == |db.events|
    ensures PendingPush(db) + Count(db.push, (row: PushRow) => row.status == Acked || row.status == Failed) == |db.push|
  {
    hide Wf;
    if Wf(db) {
      UnreadPlusAcked(db, consumer);
    }
    CountComplement(db.push, (r: PushRow) => Open(r.status) || r.status == Sent, (r: PushRow) => r.status == Acked || r.status == Failed);
  }

  lemma {:induction false} UnreadIffOldest(db: Db, consumer: string)
    ensures Count(db.events, Unread(db.acks, consumer)) == 0 <==> Oldest(db.events, Unread(db.acks, consumer)) == None
  {
    var unread := Unread(db.acks, consumer);
    if Oldest(db.events, unread) == None {
      CountNoHit(db.events, unread);
    } else {
      var e :| e in db.events && unread(e);
      var i: nat :| i < |db.events| && db.events[i] == e;
      CountHit(db.events, unread, i);
    }
  }

  /** The rows a push listing is to show: open and due, or SENT, and in both cases with their event. */
  ghost function DueWithEvent(events: seq<Event>, now: int): PushRow -> bool {
    (r: PushRow) => (r.status == Pending || r.status == Retry) && r.nextRetryAt <= now && exists e :: e in events && e.eventId == r.eventId
  }

  ghost function SentWithEvent(events: seq<Event>): PushRow -> bool {
    (r: PushRow) => r.status == Sent && exists e :: e in events && e.eventId == r.eventId
  }

  lemma {:induction false} PushListings(db: Db, now: int, limit: nat)
    requires Wf(db)
    ensures ListsFirst(db.push, Select(db.push, DuePush(db.events, now), limit), DueWithEvent(db.events, now), (r: PushRow) => r.id, limit)
    ensures ListsFirst(db.push, Select(db.push, SentPush(db.events), limit), SentWithEvent(db.events), (r: PushRow) => r.id, limit)
  {
    hide ListsFirst;
    forall r | r in db.push ensures DuePush(db.events, now)(r) <==> DueWithEvent(db.events, now)(r) {
      KnownIffListed(db.events, r.eventId);
    }
    forall r | r in db.push ensures SentPush(db.events)(r) <==> SentWithEvent(db.events)(r) {
      KnownIffListed(db.events, r.eventId);
    }
    SelectLists(db.push, DuePush(db.events, now), DueWithEvent(db.events, now), (r: PushRow) => r.id, limit);
    SelectLists(db.push, SentPush(db.events), SentWithEvent(db.events), (r: PushRow) => r.id, limit);
  }

  lemma {:induction false} AckColumns(db: Db, consumer: string, eventId: string, b: Option<Tables.Binding>, now: int)
    ensures AckOutcome(db, consumer, eventId, b, now).inserted <==> (exists e :: e in db.events && e.eventId == eventId) && (consumer, eventId) !in db.acks
    ensures AckOutcome(db, consumer, eventId, b, now).reason == MissingSessionRef <==>
      && AckOutcome(db, consumer, eventId, b, now).inserted
      && (b == None || (b.value.sessionId == "" && b.value.sessionKey == ""))
  {
    hide BindForEventOutcome;
    KnownIffListed(db.events, eventId);
  }

  // ------------------------------------------------------- rows as requested

  ghost predicate EventFrom(e: Event, x: EventInput, now: int) {
    && e.eventId == x.eventId && e.peerId == x.peerId && e.messageId == x.messageId && e.a2aMessageId == x.a2aMessageId
    && e.msgTs == x.msgTs && e.hash == x.hash && e.unreadCount == x.unreadCount && e.preview == x.preview && e.payload == x.payload
    && e.state == x.state && e.source == x.source && e.targetSessionId == x.targetSessionId && e.targetSessionKey == x.targetSessionKey
    && (x.createdAt != 0 ==> e.createdAt == x.createdAt) && (x.createdAt == 0 ==> e.createdAt == now) && e.updatedAt == now
  }

  ghost predicate PushFrom(r: PushRow, x: EventInput, now: int) {
    && r.eventId == x.eventId && r.target == x.pushTarget && r.status == Pending && r.attempt == 0 && r.lastError == ""
    && r.nextRetryAt == r.createdAt == r.updatedAt == now
  }

  ghost predicate A2AFrom(r: A2ARow, x: A2AInput, now: int) {
    && r.messageId == x.messageId && r.traceId == x.traceId && r.targetAgentId == x.targetAgentId && r.messageType == x.messageType
    && r.qos == x.qos && r.envelope == x.envelope && r.sourceSessionId == x.sourceSessionId && r.sourceSessionKey == x.sourceSessionKey
    && r.status == Pending && r.attempt == 0 && r.lastError == "" && r.nextRetryAt == r.createdAt == r.updatedAt == now
  }

  ghost predicate MediaFrom(r: MediaRow, x: MediaInput, now: int) {
    && r.eventId == x.eventId && r.sessionKey == x.sessionKey && r.channel == x.channel && r.toTarget == x.to
    && r.accountId == x.accountId && r.threadId == x.threadId && r.messageText == x.messageText && r.mediaUrl == x.mediaUrl
    && r.status == Pending && r.attempt == 0 && r.lastError == "" && r.nextRetryAt == r.createdAt == r.updatedAt == now
  }

  class EventStore {
    var db: Db
    /** What the clock reads, in Unix milliseconds. */
    var clock: int

    /** A fresh database. */
    constructor (clock: nat)
      ensures db == EMPTY && this.clock == clock
    {
      db := EMPTY;
      this.clock := clock;
    }

    // ------------------------------------------------------------------ events

    /** One transaction: the event, then its push row; an index violation in either undoes both. */
    method InsertIncomingEvent(x: EventInput, gap: nat, pushGap: nat) returns (res: InsertResult)
      modifies this`db
      ensures db == InsertEvent(old(db), x, gap, pushGap, clock) == System.Apply(old(db), System.Insert(x, gap, pushGap), clock)
      ensures res == InsertResult(InsertOutcome(old(db), x) == NoReason, x.eventId, InsertOutcome(old(db), x))
      ensures !res.created ==> db == old(db)
      ensures res.created ==>
        && db == old(db).(events := db.events, eventSeq := db.eventSeq, push := db.push, pushSeq := db.pushSeq)
        && |db.events| == |old(db).events| + 1 && old(db).events <= db.events
        && EventFrom(db.events[|old(db).events|], x, clock) && db.events[|old(db).events|].seqNo == db.eventSeq > old(db).eventSeq
      ensures res.created && x.pushEnabled ==>
        && |db.push| == |old(db).push| + 1 && old(db).push <= db.push
        && PushFrom(db.push[|old(db).push|], x, clock) && db.push[|old(db).push|].id == db.pushSeq > old(db).pushSeq
        && DuePush(db.events, clock)(db.push[|old(db).push|])
      ensures !x.pushEnabled ==> db.push == old(db).push && db.pushSeq == old(db).pushSeq
    {
      var begin := db;
      var clash := FindClash(x);
      if clash { return InsertResult(false, x.eventId, EventExists); }
      db := AddEvent(db, x, gap, clock);
      if x.pushEnabled {
        if PushOf(db.push, x.eventId) < |db.push| {
          db := begin;
          return InsertResult(false, x.eventId, PushOutboxConflict);
        }
        db := AddPush(db, x, pushGap, clock);
      }
      return InsertResult(true, x.eventId, NoReason);
    }

    /** Whether one of the unique indexes refuses the row. */
    method FindClash(x: EventInput) returns (clash: bool)
      ensures clash <==> EventClash(db.events, x)
    {
      for i := 0 to |db.events|
        invariant forall j :: 0 <= j < i ==> !Clashes(db.events[j], x)
      {
        if Clashes(db.events[i], x) { return true; }
      }
      return false;
    }

    method GetEvent(eventId: string) returns (e: Option<Event>)
      ensures e == EventOf(db, eventId)
    {
      var n := EventAt(db.events, eventId);
      if n < |db.events| { return Some(db.events[n]); }
      return None;
    }

    method PullEvents(consumer: string, cursor: int, limit: int, peerId: string) returns (events: seq<Event>)
      ensures events == Pull(db, consumer, cursor, limit, peerId)
      ensures Wf(db) ==> IsBatch(db, consumer, cursor, limit, peerId, events)
    {
      hide Wf, IsBatch, Pullable;
      if Wf(db) {
        WfHasEvents(db);
        PullIsBatch(db, consumer, cursor, limit, peerId);
      }
      events := Query(db.events, Pullable(db.acks, consumer, cursor, peerId), if limit <= 0 then 20 else limit);
    }

    method UpdateEventTargetSession(eventId: string, sessionId: string, sessionKey: string) returns (found: bool)
      modifies this`db
      ensures db == SetTargetSession(old(db), eventId, sessionId, sessionKey, clock)
      ensures found <==> exists e :: e in old(db).events && e.eventId == eventId
    {
      var n := EventAt(db.events, eventId);
      found := n < |db.events|;
      if found {
        var e := db.events[n].(targetSessionId := sessionId, targetSessionKey := sessionKey, updatedAt := clock);
        db := db.(events := db.events[n := e]);
      }
    }

    // ------------------------------------------------------------- push outbox

    method ListPendingPushOutbox(now: int, batchSize: int) returns (rows: seq<PushRow>)
      ensures rows == Select(db.push, DuePush(db.events, now), if batchSize <= 0 then 20 else batchSize)
      ensures Wf(db) ==>
        ListsFirst(db.push, rows, DueWithEvent(db.events, now), (r: PushRow) => r.id, if batchSize <= 0 then 20 else batchSize)
    {
      hide Wf, ListsFirst;
      if Wf(db) {
        PushListings(db, now, if batchSize <= 0 then 20 else batchSize);
      }
      rows := Query(db.push, DuePush(db.events, now), if batchSize <= 0 then 20 else batchSize);
    }

    method ListSentPushOutbox(batchSize: int) returns (rows: seq<PushRow>)
      ensures rows == Select(db.push, SentPush(db.events), if batchSize <= 0 then 20 else batchSize)
      ensures Wf(db) ==>
        ListsFirst(db.push, rows, SentWithEvent(db.events), (r: PushRow) => r.id, if batchSize <= 0 then 20 else batchSize)
    {
      hide Wf, ListsFirst;
      if Wf(db) {
        PushListings(db, 0, if batchSize <= 0 then 20 else batchSize);
      }
      rows := Query(db.push, SentPush(db.events), if batchSize <= 0 then 20 else batchSize);
    }

    method MarkPushSent(id: int, eventId: string, deadline: int)
      modifies this`db
      ensures db == Tables.MarkPushSent(old(db), id, eventId, deadline, clock)
      ensures db == old(db).(push := db.push, events := db.events)
      ensures |db.push| == |old(db).push| && |db.events| == |old(db).events|
      ensures Wf(old(db)) ==> forall i :: 0 <= i < |db.push| ==>
        var r := old(db).push[i];
        db.push[i] == if r.id == id then r.(status := Sent, nextRetryAt := deadline, updatedAt := clock, lastError := "") else r
      ensures Wf(old(db)) ==> forall i :: 0 <= i < |db.events| ==>
        var e := old(db).events[i];
        db.events[i] == if e.eventId == eventId then e.(state := Pushed, updatedAt := clock) else e
      ensures Wf(old(db)) ==> forall i, now :: 0 <= i < |db.push| && db.push[i].id == id ==> !DuePush(db.events, now)(db.push[i])
    {
      hide Wf;
      RowsById(db, id, eventId);
      db := PushSentRow(db, id, deadline, clock);
      db := SetEventState(db, eventId, Pushed, clock);
    }

    method MarkPushAcked(id: int, eventId: string)
      modifies this`db
      ensures db == Tables.MarkPushAcked(old(db), id, eventId, clock)
      ensures db == old(db).(push := db.push, events := db.events)
      ensures |db.push| == |old(db).push| && |db.events| == |old(db).events|
      ensures Wf(old(db)) ==> forall i :: 0 <= i < |db.push| ==>
        var r := old(db).push[i];
        db.push[i] == if r.id == id then r.(status := Acked, updatedAt := clock, lastError := "") else r
      ensures Wf(old(db)) ==> forall i :: 0 <= i < |db.events| ==>
        var e := old(db).events[i];
        db.events[i] == if e.eventId == eventId then e.(state := Consumed, updatedAt := clock) else e
      ensures Wf(old(db)) ==> forall i, now :: 0 <= i < |db.push| && db.push[i].id == id ==>
        !DuePush(db.events, now)(db.push[i]) && !SentPush(db.events)(db.push[i])
    {
      hide Wf;
      RowsById(db, id, eventId);
      db := PushAckedRow(db, id, clock);
      db := SetEventState(db, eventId, Consumed, clock);
    }

    method MarkPushRetry(id: int, attempt: int, nextRetryAt: int, error: string)
      modifies this`db
      ensures db == Tables.MarkPushRetry(old(db), id, attempt, nextRetryAt, error, clock)
      ensures db == old(db).(push := db.push) && |db.push| == |old(db).push|
      ensures Wf(old(db)) ==> forall i :: 0 <= i < |db.push| ==>
        var r := old(db).push[i];
        db.push[i] == if r.id == id then r.(status := Retry, attempt := attempt, nextRetryAt := nextRetryAt, updatedAt := clock, lastError := Truncate(error)) else r
      ensures Wf(old(db)) ==> forall i, now :: 0 <= i < |db.push| && db.push[i].id == id ==>
        (DuePush(db.events, now)(db.push[i]) <==> nextRetryAt <= now)
    {
      hide Wf;
      RowsHaveEvents(db);
      RowsById(db, id, "");
      var n := PushAt(db.push, id);
      if n < |db.push| {
        var r := db.push[n].(status := Retry, attempt := attempt, nextRetryAt := nextRetryAt, updatedAt := clock, lastError := Truncate(error));
        db := db.(push := db.push[n := r]);
      }
    }

    // ------------------------------------------------------------- peer routes

    /** Read, check for staleness, merge field by field, upsert. */
    method BindPeerSession(peerId: string, sessionId: string, sessionKey: string, source: string, updatedAt: int)
      returns (updated: bool, reason: BindReason)
      modifies this`db
      ensures db == BindPeer(old(db), peerId, sessionId, sessionKey, source, updatedAt)
           == System.Apply(old(db), System.BindSession(peerId, sessionId, sessionKey, source, updatedAt), clock)
      ensures reason == BindOutcome(RouteOf(old(db), peerId), peerId, sessionId, sessionKey, updatedAt)
      ensures updated <==> reason == Bound
    {
      if peerId == "" { return false, MissingPeer; }
      if sessionId == "" && sessionKey == "" { return false, MissingRef; }
      var existing := peerId in db.routes;
      var existId, existKey := "", "";
      if existing {
        existId, existKey := db.routes[peerId].sessionId, db.routes[peerId].sessionKey;
        if db.routes[peerId].updatedAt > updatedAt { return false, Stale; }
      }
      var nextKey := sessionKey;
      if nextKey == "" { nextKey := existKey; }
      var nextId := sessionId;
      if nextKey != "" {
        if sessionId == "" { nextId := existId; }
      } else {
        if nextId == "" { nextId := existId; }
      }
      db := db.(routes := db.routes[peerId := Route(nextId, nextKey, source, updatedAt)]);
      return true, Bound;
    }

    method BindPeerSessionForEvent(eventId: string, sessionId: string, sessionKey: string, source: string, updatedAt: int)
      returns (bound: bool, reason: BindReason)
      modifies this`db
      ensures db == BindForEvent(old(db), eventId, sessionId, sessionKey, source, updatedAt)
           == System.Apply(old(db), System.BindSessionForEvent(eventId, sessionId, sessionKey, source, updatedAt), clock)
      ensures reason == BindForEventOutcome(old(db), eventId, sessionId, sessionKey, updatedAt)
      ensures bound <==> reason == Bound
    {
      if eventId == "" { return false, MissingEvent; }
      var n := EventAt(db.events, eventId);
      if n == |db.events| || db.events[n].peerId == "" { return false, EventNotFound; }
      bound, reason := BindPeerSession(db.events[n].peerId, sessionId, sessionKey, source, updatedAt);
    }

    method FindA2aReplyRoute(peerId: string, traceId: string) returns (found: Option<R.RouteResult>)
      ensures found == R.FindReplyRoute(db, peerId, traceId)
      ensures R.Answers(db, peerId, traceId, found)
    {
      R.LookupAnswers(db, peerId, traceId);
      if peerId == "" { return None; }
      if traceId != "" {
        var byTrace := R.Latest(db.a2a, R.SentInTrace(peerId, traceId));
        if byTrace.Some? {
          return Some(R.RouteResult(byTrace.value.sourceSessionId, byTrace.value.sourceSessionKey, R.Trace));
        }
      }
      if peerId in db.routes && (db.routes[peerId].sessionId != "" || db.routes[peerId].sessionKey != "") {
        return Some(R.RouteResult(db.routes[peerId].sessionId, db.routes[peerId].sessionKey, R.PeerBinding));
      }
      var byPeer := R.Latest(db.a2a, R.SentToPeer(peerId));
      if byPeer == None { return None; }
      return Some(R.RouteResult(byPeer.value.sourceSessionId, byPeer.value.sourceSessionKey, R.PeerLatest));
    }

    // -------------------------------------------------------------- a2a outbox

    /** Enqueuing the same message id again creates nothing; an empty one is an error. */
    method EnqueueA2aOutbox(x: A2AInput, gap: nat) returns (res: EnqueueResult)
      modifies this`db
      ensures db == Enqueue(old(db), x, gap, clock) == System.Apply(old(db), System.EnqueueA2A(x, gap), clock)
      ensures res == EnqueueOutcome(old(db), x)
      ensures res == Enqueued <==> x.messageId != "" && forall r :: r in old(db).a2a ==> r.messageId != x.messageId
      ensures res == MissingMessageId <==> x.messageId == ""
      ensures res != Enqueued ==> db == old(db)
      ensures res == Enqueued ==>
        && db == old(db).(a2a := db.a2a, a2aSeq := db.a2aSeq) && |db.a2a| == |old(db).a2a| + 1 && old(db).a2a <= db.a2a
        && A2AFrom(db.a2a[|old(db).a2a|], x, clock) && db.a2a[|old(db).a2a|].id == db.a2aSeq > old(db).a2aSeq
    {
      if x.messageId == "" { return MissingMessageId; }
      for i := 0 to |db.a2a|
        invariant forall j :: 0 <= j < i ==> db.a2a[j].messageId != x.messageId
        invariant db == old(db)
      {
        if db.a2a[i].messageId == x.messageId { return AlreadyQueued; }
      }
      var id := db.a2aSeq + 1 + gap;
      db := db.(a2a := db.a2a + [NewA2A(x, id, clock)], a2aSeq := id);
      return Enqueued;
    }

    method ListPendingA2aOutbox(now: int, batchSize: int) returns (rows: seq<A2ARow>)
      ensures rows == Select(db.a2a, DueA2A(now), if batchSize <= 0 then 50 else batchSize)
      ensures Wf(db) ==> ListsFirst(db.a2a, rows, (r: A2ARow) => (r.status == Pending || r.status == Retry) && r.nextRetryAt <= now,
        (r: A2ARow) => r.id, if batchSize <= 0 then 50 else batchSize)
    {
      if Wf(db) {
        SelectLists(db.a2a, DueA2A(now), (r: A2ARow) => (r.status == Pending || r.status == Retry) && r.nextRetryAt <= now,
          (r: A2ARow) => r.id, if batchSize <= 0 then 50 else batchSize);
      }
      rows := Query(db.a2a, DueA2A(now), if batchSize <= 0 then 50 else batchSize);
    }

    /** Read the row, mark it SENT, then bind its target's route: two statements, no transaction. */
    method MarkA2aOutboxSent(id: int)
      modifies this`db
      ensures
        var n, marked := A2AAt(old(db).a2a, id), A2ASentRow(old(db), id, clock);
        db == if n < |old(db).a2a| then BindSent(marked, old(db).a2a[n], clock) else marked
    {
      var n := A2AAt(db.a2a, id);
      if n < |db.a2a| {
        var r := db.a2a[n];
        db := db.(a2a := db.a2a[n := r.(status := Sent, updatedAt := clock, lastError := "")]);
        if r.targetAgentId != "" {
          var updatedAt := r.createdAt;
          if updatedAt == 0 { updatedAt := clock; }
          var _, _ := BindPeerSession(r.targetAgentId, r.sourceSessionId, r.sourceSessionKey, "a2a-send", updatedAt);
        }
      }
    }

    method MarkA2aOutboxRetry(id: int, attempt: int, nextRetryAt: int, error: string)
      modifies this`db
      ensures db == MarkA2ARetry(old(db), id, attempt, nextRetryAt, error, clock)
      ensures db == old(db).(a2a := db.a2a) && |db.a2a| == |old(db).a2a|
      ensures Wf(old(db)) ==> forall i :: 0 <= i < |db.a2a| ==>
        var r := old(db).a2a[i];
        db.a2a[i] == if r.id == id then r.(status := Retry, attempt := attempt, nextRetryAt := nextRetryAt, updatedAt := clock, lastError := Truncate(error)) else r
      ensures Wf(old(db)) ==> forall i, now :: 0 <= i < |db.a2a| && db.a2a[i].id == id ==> (DueA2A(now)(db.a2a[i]) <==> nextRetryAt <= now)
    {
      hide Wf;
      RowsById(db, id, "");
      var n := A2AAt(db.a2a, id);
      if n < |db.a2a| {
        var r := db.a2a[n].(status := Retry, attempt := attempt, nextRetryAt := nextRetryAt, updatedAt := clock, lastError := Truncate(error));
        db := db.(a2a := db.a2a[n := r]);
      }
    }

    // -------------------------------------------------------------------- acks

    /** The ack and the event's state in one transaction, the route after it. */
    method AckEvent(consumer: string, eventId: string, binding: Option<Tables.Binding>) returns (res: AckResult)
      modifies this`db
      ensures db == Tables.AckEvent(old(db), consumer, eventId, binding, clock) == System.Apply(old(db), System.Ack(consumer, eventId, binding), clock)
      ensures res == AckOutcome(old(db), consumer, eventId, binding, clock)
      ensures res.inserted <==> (exists e :: e in old(db).events && e.eventId == eventId) && (consumer, eventId) !in old(db).acks
      ensures res.reason == MissingSessionRef <==> res.inserted && (binding == None || (binding.value.sessionId == "" && binding.value.sessionKey == ""))
    {
      hide BindPeer, BindOutcome, Merge, InsertEvent, Enqueue, EnqueueMedia;
      AckColumns(db, consumer, eventId, binding, clock);
      var n := EventAt(db.events, eventId);
      if n == |db.events| { return AckResult(false, 0, false, false, NoEvent); }
      var msgTs, createdAt := db.events[n].msgTs, db.events[n].createdAt;
      var first := (consumer, eventId) !in db.acks;
      if first { db := db.(acks := db.acks[(consumer, eventId) := clock]); }
      db := SetEventState(db, eventId, Consumed, clock);
      var ackedAt := if first then clock else db.acks[(consumer, eventId)];
      if first && HasRef(binding) {
        var updatedAt := msgTs;
        if updatedAt == 0 { updatedAt := createdAt; }
        assert db.events[n].eventId == eventId && EventAt(db.events, eventId) == n;
        var bound, reason := BindPeerSessionForEvent(eventId, binding.value.sessionId, binding.value.sessionKey, binding.value.source, updatedAt);
        return AckResult(true, ackedAt, true, bound, Bind(reason));
      }
      return AckResult(true, ackedAt, first, false, if first then MissingSessionRef else AlreadyAcked);
    }

    method IsEventAckedByConsumer(consumer: string, eventId: string) returns (acked: bool)
      ensures acked <==> eventId in AckedBy(db.acks, consumer)
    {
      acked := (consumer, eventId) in db.acks;
    }

    method PeekUnread(consumer: string) returns (r: PeekResult)
      ensures r == Inbox.PeekUnread(db, consumer)
      ensures Wf(db) ==> r.unread + |AckedBy(db.acks, consumer)| == |db.events|
      ensures r.pendingPush + Count(db.push, (row: PushRow) => row.status == Acked || row.status == Failed) == |db.push|
    {
      hide Wf, Count;
      CountsAddUp(db, consumer);
      r := PeekResult(Count(db.events, Unread(db.acks, consumer)), PendingPush(db));
    }

    method CheckStatus(consumer: string) returns (r: CheckResult)
      ensures r == Inbox.CheckStatus(db, consumer)
      ensures Wf(db) ==> r.unread + |AckedBy(db.acks, consumer)| == |db.events|
      ensures r.pendingPush + Count(db.push, (row: PushRow) => row.status == Acked || row.status == Failed) == |db.push|
      ensures r.unread == 0 ==> r.oldestUnreadAt == 0
      ensures r.unread > 0 ==> exists e :: e in db.events && (consumer, e.eventId) !in db.acks && e.createdAt == r.oldestUnreadAt
      ensures forall e :: e in db.events && (consumer, e.eventId) !in db.acks ==> r.oldestUnreadAt <= e.createdAt
    {
      hide Wf, Count;
      CountsAddUp(db, consumer);
      UnreadIffOldest(db, consumer);
      var oldest := Oldest(db.events, Unread(db.acks, consumer));
      var at := 0;
      if oldest.Some? { at := oldest.value; }
      r := CheckResult(Count(db.events, Unread(db.acks, consumer)), at, PendingPush(db));
    }

    // ------------------------------------------------------------ media outbox

    method EnqueueMediaOutbox(x: MediaInput, gap: nat) returns (inserted: bool)
      modifies this`db
      ensures db == EnqueueMedia(old(db), x, gap, clock) == System.Apply(old(db), System.QueueMedia(x, gap), clock)
      ensures inserted <==> !MediaKnown(old(db).media, x.eventId)
      ensures inserted <==> forall r :: r in old(db).media ==> r.eventId != x.eventId
      ensures !inserted ==> db == old(db)
      ensures inserted ==>
        && db == old(db).(media := db.media, mediaSeq := db.mediaSeq) && |db.media| == |old(db).media| + 1 && old(db).media <= db.media
        && MediaFrom(db.media[|old(db).media|], x, clock) && db.media[|old(db).media|].id == db.mediaSeq > old(db).mediaSeq
    {
      for i := 0 to |db.media|
        invariant forall j :: 0 <= j < i ==> db.media[j].eventId != x.eventId
        invariant db == old(db)
      {
        if db.media[i].eventId == x.eventId { return false; }
      }
      var id := db.mediaSeq + 1 + gap;
      db := db.(media := db.media + [NewMedia(x, id, clock)], mediaSeq := id);
      return true;
    }

    method ListPendingMediaOutbox(now: int, batchSize: int) returns (rows: seq<MediaRow>)
      ensures rows == Select(db.media, DueMedia(now), if batchSize <= 0 then 20 else batchSize)
      ensures Wf(db) ==> ListsFirst(db.media, rows, (r: MediaRow) => (r.status == Pending || r.status == Retry) && r.nextRetryAt <= now,
        (r: MediaRow) => r.id, if batchSize <= 0 then 20 else batchSize)
    {
      if Wf(db) {
        SelectLists(db.media, DueMedia(now), (r: MediaRow) => (r.status == Pending || r.status == Retry) && r.nextRetryAt <= now,
          (r: MediaRow) => r.id, if batchSize <= 0 then 20 else batchSize);
      }
      rows := Query(db.media, DueMedia(now), if batchSize <= 0 then 20 else batchSize);
    }

    method MarkMediaSent(id: int)
      modifies this`db
      ensures db == Tables.MarkMediaSent(old(db), id, clock)
      ensures db == old(db).(media := db.media) && |db.media| == |old(db).media|
      ensures Wf(old(db)) ==> forall i :: 0 <= i < |db.media| ==>
        var r := old(db).media[i];
        db.media[i] == if r.id == id then r.(status := Sent, updatedAt := clock, lastError := "") else r
      ensures Wf(old(db)) ==> forall i, now :: 0 <= i < |db.media| && db.media[i].id == id ==> !DueMedia(now)(db.media[i])
    {
      hide Wf;
      RowsById(db, id, "");
      var n := MediaAt(db.media, id);
      if n < |db.media| {
        db := db.(media := db.media[n := db.media[n].(status := Sent, updatedAt := clock, lastError := "")]);
      }
    }

    method MarkMediaRetry(id: int, attempt: int, nextRetryAt: int, error: string)
      modifies this`db
      ensures db == Tables.MarkMediaRetry(old(db), id, attempt, nextRetryAt, error, clock)
      ensures db == old(db).(media := db.media) && |db.media| == |old(db).media|
      ensures Wf(old(db)) ==> forall i :: 0 <= i < |db.media| ==>
        var r := old(db).media[i];
        db.media[i] == if r.id == id then r.(status := Retry, attempt := attempt, nextRetryAt := nextRetryAt, updatedAt := clock, lastError := Truncate(error)) else r
      ensures Wf(old(db)) ==> forall i, now :: 0 <= i < |db.media| && db.media[i].id == id ==> (DueMedia(now)(db.media[i]) <==> nextRetryAt <= now)
    {
      hide Wf;
      RowsById(db, id, "");
      var n := MediaAt(db.media, id);
      if n < |db.media| {
        var r := db.media[n].(status := Retry, attempt := attempt, nextRetryAt := nextRetryAt, updatedAt := clock, lastError := Truncate(error));
        db := db.(media := db.media[n := r]);
      }
    }

    method MarkMediaFailed(id: int, error: string)
      modifies this`db
      ensures db == Tables.MarkMediaFailed(old(db), id, error, clock)
      ensures db == old(db).(media := db.media) && |db.media| == |old(db).media|
      ensures Wf(old(db)) ==> forall i :: 0 <= i < |db.media| ==>
        var r := old(db).media[i];
        db.media[i] == if r.id == id then r.(status := Failed, updatedAt := clock, lastError := Truncate(error)) else r
      ensures Wf(old(db)) ==> forall i, now :: 0 <= i < |db.media| && db.media[i].id == id ==> !DueMedia(now)(db.media[i])
    {
      hide Wf;
      RowsById(db, id, "");
      var n := MediaAt(db.media, id);
      if n < |db.media| {
        db := db.(media := db.media[n := db.media[n].(status := Failed, updatedAt := clock, lastError := Truncate(error))]);
      }
    }
  }
}
