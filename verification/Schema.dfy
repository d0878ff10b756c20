/** What the declared constraints give on every reachable database, and how a step may change one. */
module Schema {
  import opened Wrappers
  import opened Tables
  import opened System
  import Backoff

  // ------------------------------------------------------------- constraints

  ghost predicate WfEvents(events: seq<Event>, eventSeq: int) {
    && (forall i, j :: 0 <= i < j < |events| ==> events[i].seqNo < events[j].seqNo)
    && (forall i :: 0 <= i < |events| ==> 0 < events[i].seqNo <= eventSeq)
    && (forall i, j :: 0 <= i < j < |events| ==> events[i].eventId != events[j].eventId)
    && 0 <= eventSeq
  }

  ghost predicate WfPush(push: seq<PushRow>, pushSeq: int) {
    && (forall i, j :: 0 <= i < j < |push| ==> push[i].id < push[j].id)
    && (forall i :: 0 <= i < |push| ==> push[i].id <= pushSeq)
    && (forall i, j :: 0 <= i < j < |push| ==> push[i].eventId != push[j].eventId)
  }

  ghost predicate WfA2A(a2a: seq<A2ARow>, a2aSeq: int) {
    && (forall i, j :: 0 <= i < j < |a2a| ==> a2a[i].id < a2a[j].id)
    && (forall i :: 0 <= i < |a2a| ==> a2a[i].id <= a2aSeq)
  }

  ghost predicate WfMedia(media: seq<MediaRow>, mediaSeq: int) {
    && (forall i, j :: 0 <= i < j < |media| ==> media[i].id < media[j].id)
    && (forall i :: 0 <= i < |media| ==> media[i].id <= mediaSeq)
    && (forall i, j :: 0 <= i < j < |media| ==> media[i].eventId != media[j].eventId)
  }

  ghost predicate Known(events: seq<Event>, eventId: string) {
    EventAt(events, eventId) < |events|
  }

  /** No foreign key is declared, but no push row is without its event. */
  ghost predicate PushReferences(events: seq<Event>, push: seq<PushRow>) {
    forall i :: 0 <= i < |push| ==> Known(events, push[i].eventId)
  }

  ghost predicate AckReferences(events: seq<Event>, acks: map<(string, string), int>) {
    forall k :: k in acks ==> Known(events, k.1)
  }

  ghost predicate Wf(db: Db) {
    && WfEvents(db.events, db.eventSeq) && WfPush(db.push, db.pushSeq)
    && WfA2A(db.a2a, db.a2aSeq) && WfMedia(db.media, db.mediaSeq)
    && PushReferences(db.events, db.push) && AckReferences(db.events, db.acks)
  }

  // ------------------------------------------------------------------ growth

  predicate SameEvent(e: Event, e': Event) {
    e' == e.(state := e'.state, targetSessionId := e'.targetSessionId, targetSessionKey := e'.targetSessionKey, updatedAt := e'.updatedAt)
  }

  predicate SamePush(r: PushRow, r': PushRow) {
    r' == r.(status := r'.status, attempt := r'.attempt, nextRetryAt := r'.nextRetryAt, updatedAt := r'.updatedAt, lastError := r'.lastError)
  }

  predicate SameA2A(r: A2ARow, r': A2ARow) {
    r' == r.(status := r'.status, attempt := r'.attempt, nextRetryAt := r'.nextRetryAt, updatedAt := r'.updatedAt, lastError := r'.lastError)
  }

  predicate SameMedia(r: MediaRow, r': MediaRow) {
    r' == r.(status := r'.status, attempt := r'.attempt, nextRetryAt := r'.nextRetryAt, updatedAt := r'.updatedAt, lastError := r'.lastError)
  }

  ghost predicate EventsKept(events: seq<Event>, events': seq<Event>) {
    |events| <= |events'| && forall i :: 0 <= i < |events| ==> SameEvent(events[i], events'[i])
  }

  ghost predicate PushKept(push: seq<PushRow>, push': seq<PushRow>) {
    |push| <= |push'| && forall i :: 0 <= i < |push| ==> SamePush(push[i], push'[i])
  }

  ghost predicate A2AKept(a2a: seq<A2ARow>, a2a': seq<A2ARow>) {
    |a2a| <= |a2a'| && forall i :: 0 <= i < |a2a| ==> SameA2A(a2a[i], a2a'[i])
  }

  ghost predicate MediaKept(media: seq<MediaRow>, media': seq<MediaRow>) {
    |media| <= |media'| && forall i :: 0 <= i < |media| ==> SameMedia(media[i], media'[i])
  }

  ghost predicate AcksKept(acks: map<(string, string), int>, acks': map<(string, string), int>) {
    forall k :: k in acks ==> k in acks' && acks'[k] == acks[k]
  }

  /** New rows have ids above every one handed out before. */
  ghost predicate Fresh(db: Db, db': Db) {
    && db.eventSeq <= db'.eventSeq && db.pushSeq <= db'.pushSeq && db.a2aSeq <= db'.a2aSeq && db.mediaSeq <= db'.mediaSeq
    && (forall i :: |db.events| <= i < |db'.events| ==> db.eventSeq < db'.events[i].seqNo)
    && (forall i :: |db.push| <= i < |db'.push| ==> db.pushSeq < db'.push[i].id)
    && (forall i :: |db.a2a| <= i < |db'.a2a| ==> db.a2aSeq < db'.a2a[i].id)
    && (forall i :: |db.media| <= i < |db'.media| ==> db.mediaSeq < db'.media[i].id)
  }

  /** Rows keep their place, their key and their content; only bookkeeping columns change; an ack,
      once recorded, keeps its time. */
  ghost predicate Grows(db: Db, db': Db) {
    && EventsKept(db.events, db'.events) && PushKept(db.push, db'.push) && A2AKept(db.a2a, db'.a2a)
    && MediaKept(db.media, db'.media) && AcksKept(db.acks, db'.acks) && Fresh(db, db')
  }

  lemma {:induction false} GrowsSelf(db: Db)
    ensures Grows(db, db)
  {
  }

  lemma {:induction false} EventsKeptTrans(a: seq<Event>, b: seq<Event>, c: seq<Event>)
    requires EventsKept(a, b) && EventsKept(b, c)
    ensures EventsKept(a, c)
  {
    assert forall i :: 0 <= i < |a| ==> SameEvent(a[i], b[i]) && SameEvent(b[i], c[i]);
  }

  lemma {:induction false} GrowsTrans(a: Db, b: Db, c: Db)
    requires Grows(a, b) && Grows(b, c)
    ensures Grows(a, c)
  {
    EventsKeptTrans(a.events, b.events, c.events);
    assert forall i :: 0 <= i < |a.push| ==> SamePush(a.push[i], b.push[i]) && SamePush(b.push[i], c.push[i]);
    assert forall i :: 0 <= i < |a.a2a| ==> SameA2A(a.a2a[i], b.a2a[i]) && SameA2A(b.a2a[i], c.a2a[i]);
    assert forall i :: 0 <= i < |a.media| ==> SameMedia(a.media[i], b.media[i]) && SameMedia(b.media[i], c.media[i]);
  }

  lemma {:induction false} KnownKept(events: seq<Event>, events': seq<Event>, eventId: string)
    requires EventsKept(events, events') && Known(events, eventId)
    ensures EventAt(events', eventId) == EventAt(events, eventId)
  {
    var n, n' := EventAt(events, eventId), EventAt(events', eventId);
    assert SameEvent(events[n], events'[n]);
    assert n' < n ==> SameEvent(events[n'], events'[n']);
  }

  lemma {:induction false} AllKnownKept(events: seq<Event>, events': seq<Event>)
    requires EventsKept(events, events')
    ensures forall eventId :: Known(events, eventId) ==> EventAt(events', eventId) == EventAt(events, eventId)
  {
    forall eventId | Known(events, eventId) ensures EventAt(events', eventId) == EventAt(events, eventId) {
      KnownKept(events, events', eventId);
    }
  }

  // ------------------------------------------------------ one row at a time

  /** Rewriting one event row. */
  lemma {:induction false} EventRowSet(db: Db, n: nat, e: Event)
    requires Wf(db) && n < |db.events| && SameEvent(db.events[n], e)
    ensures Wf(SetEvent(db, n, e)) && Grows(db, SetEvent(db, n, e))
  {
    var events' := db.events[n := e];
    GrowsSelf(db);
    assert EventsKept(db.events, events');
    AllKnownKept(db.events, events');
    assert WfEvents(events', db.eventSeq);
  }

  lemma {:induction false} PushRowSet(db: Db, n: nat, r: PushRow)
    requires Wf(db) && n < |db.push| && SamePush(db.push[n], r)
    ensures Wf(SetPush(db, n, r)) && Grows(db, SetPush(db, n, r))
  {
    GrowsSelf(db);
    assert WfPush(db.push[n := r], db.pushSeq);
  }

  lemma {:induction false} A2ARowSet(db: Db, n: nat, r: A2ARow)
    requires Wf(db) && n < |db.a2a| && SameA2A(db.a2a[n], r)
    ensures Wf(SetA2A(db, n, r)) && Grows(db, SetA2A(db, n, r))
  {
    GrowsSelf(db);
    assert WfA2A(db.a2a[n := r], db.a2aSeq);
  }

  lemma {:induction false} MediaRowSet(db: Db, n: nat, r: MediaRow)
    requires Wf(db) && n < |db.media| && SameMedia(db.media[n], r)
    ensures Wf(SetMedia(db, n, r)) && Grows(db, SetMedia(db, n, r))
  {
    GrowsSelf(db);
    assert WfMedia(db.media[n := r], db.mediaSeq);
  }

  lemma {:induction false} RoutesSet(db: Db, db': Db)
    requires Wf(db) && db' == db.(routes := db'.routes)
    ensures Wf(db') && Grows(db, db')
  {
    GrowsSelf(db);
  }

  lemma {:induction false} EventStateSet(db: Db, eventId: string, state: EventState, ts: int)
    requires Wf(db)
    ensures Wf(SetEventState(db, eventId, state, ts)) && Grows(db, SetEventState(db, eventId, state, ts))
  {
    hide Wf, Grows;
    var n := EventAt(db.events, eventId);
    GrowsSelf(db);
    if n < |db.events| {
      EventRowSet(db, n, db.events[n].(state := state, updatedAt := ts));
    }
  }

  lemma {:induction false} EventsWithOneMore(events: seq<Event>, eventSeq: int, e: Event)
    requires WfEvents(events, eventSeq) && eventSeq < e.seqNo && forall i :: 0 <= i < |events| ==> events[i].eventId != e.eventId
    ensures WfEvents(events + [e], e.seqNo) && EventsKept(events, events + [e])
    ensures EventAt(events + [e], e.eventId) == |events|
  {
    var events' := events + [e];
    assert events'[|events|] == e;
    assert forall i :: 0 <= i < |events| ==> events'[i] == events[i];
  }

  lemma {:induction false} EventRowAdded(db: Db, x: EventInput, gap: nat, ts: int)
    requires Wf(db) && !EventClash(db.events, x)
    ensures Wf(AddEvent(db, x, gap, ts)) && Grows(db, AddEvent(db, x, gap, ts))
    ensures EventAt(AddEvent(db, x, gap, ts).events, x.eventId) == |db.events|
  {
    hide EventClash, Wf, Grows;
    NoClashNoId(db.events, x);
    WfWithOneMoreEvent(db, NewEvent(x, db.eventSeq + 1 + gap, ts));
  }

  lemma {:induction false} WfWithOneMoreEvent(db: Db, e: Event)
    requires Wf(db) && db.eventSeq < e.seqNo && forall i :: 0 <= i < |db.events| ==> db.events[i].eventId != e.eventId
    ensures
      var db' := db.(events := db.events + [e], eventSeq := e.seqNo);
      Wf(db') && Grows(db, db') && EventAt(db'.events, e.eventId) == |db.events|
  {
    hide WfPush, WfA2A, WfMedia, PushKept, A2AKept, MediaKept;
    GrowsSelf(db);
    EventsWithOneMore(db.events, db.eventSeq, e);
    AllKnownKept(db.events, db.events + [e]);
  }

  lemma {:induction false} NoClashNoId(events: seq<Event>, x: EventInput)
    requires !EventClash(events, x)
    ensures forall i :: 0 <= i < |events| ==> events[i].eventId != x.eventId
  {
    assert forall i :: 0 <= i < |events| ==> !Clashes(events[i], x);
  }

  lemma {:induction false} PushWithOneMore(push: seq<PushRow>, pushSeq: int, r: PushRow)
    requires WfPush(push, pushSeq) && pushSeq < r.id && forall i :: 0 <= i < |push| ==> push[i].eventId != r.eventId
    ensures WfPush(push + [r], r.id) && PushKept(push, push + [r])
  {
    var push' := push + [r];
    assert push'[|push|] == r;
    assert forall i :: 0 <= i < |push| ==> push'[i] == push[i];
  }

  lemma {:induction false} PushRowAdded(db: Db, x: EventInput, gap: nat, ts: int)
    requires Wf(db) && Known(db.events, x.eventId) && PushOf(db.push, x.eventId) == |db.push|
    ensures Wf(AddPush(db, x, gap, ts)) && Grows(db, AddPush(db, x, gap, ts))
  {
    GrowsSelf(db);
    PushWithOneMore(db.push, db.pushSeq, NewPush(x, db.pushSeq + 1 + gap, ts));
  }

  // ----------------------------------------------------------- each operation

  lemma {:induction false} InsertKeepsWf(db: Db, x: EventInput, gap: nat, pushGap: nat, ts: int)
    requires Wf(db)
    ensures Wf(InsertEvent(db, x, gap, pushGap, ts)) && Grows(db, InsertEvent(db, x, gap, pushGap, ts))
  {
    hide Grows, EventClash;
    GrowsSelf(db);
    if InsertOutcome(db, x) == NoReason {
      EventRowAdded(db, x, gap, ts);
      if x.pushEnabled {
        PushRowAdded(AddEvent(db, x, gap, ts), x, pushGap, ts);
        GrowsTrans(db, AddEvent(db, x, gap, ts), InsertEvent(db, x, gap, pushGap, ts));
      }
    }
  }

  lemma {:induction false} AckRowAdded(db: Db, consumer: string, eventId: string, ts: int)
    requires Wf(db) && Known(db.events, eventId)
    ensures Wf(RecordAck(db, consumer, eventId, ts)) && Grows(db, RecordAck(db, consumer, eventId, ts))
  {
    var db1 := if (consumer, eventId) in db.acks then db else db.(acks := db.acks[(consumer, eventId) := ts]);
    GrowsSelf(db);
    assert Wf(db1) && Grows(db, db1);
    EventStateSet(db1, eventId, Consumed, ts);
    GrowsTrans(db, db1, SetEventState(db1, eventId, Consumed, ts));
  }

  lemma {:induction false} AckKeepsWf(db: Db, consumer: string, eventId: string, b: Option<Tables.Binding>, ts: int)
    requires Wf(db)
    ensures Wf(AckEvent(db, consumer, eventId, b, ts)) && Grows(db, AckEvent(db, consumer, eventId, b, ts))
  {
    GrowsSelf(db);
    if Known(db.events, eventId) {
      AckRowAdded(db, consumer, eventId, ts);
      var db1 := RecordAck(db, consumer, eventId, ts);
      var db2 := AckEvent(db, consumer, eventId, b, ts);
      RoutesSet(db1, db2);
      GrowsTrans(db, db1, db2);
    }
  }

  lemma {:induction false} EnqueueKeepsWf(db: Db, x: A2AInput, gap: nat, ts: int)
    requires Wf(db)
    ensures Wf(Enqueue(db, x, gap, ts)) && Grows(db, Enqueue(db, x, gap, ts))
  {
    GrowsSelf(db);
    var a2a' := Enqueue(db, x, gap, ts).a2a;
    assert WfA2A(a2a', Enqueue(db, x, gap, ts).a2aSeq) && A2AKept(db.a2a, a2a');
  }

  lemma {:induction false} QueueMediaKeepsWf(db: Db, x: MediaInput, gap: nat, ts: int)
    requires Wf(db)
    ensures Wf(EnqueueMedia(db, x, gap, ts)) && Grows(db, EnqueueMedia(db, x, gap, ts))
  {
    GrowsSelf(db);
    if !MediaKnown(db.media, x.eventId) {
      var media' := EnqueueMedia(db, x, gap, ts).media;
      assert forall i :: 0 <= i < |db.media| ==> db.media[i].eventId != x.eventId && media'[i] == db.media[i];
      assert WfMedia(media', db.mediaSeq + 1 + gap) && MediaKept(db.media, media');
    }
  }

  lemma {:induction false} OpKeepsWf(db: Db, op: StoreOp, now: int)
    requires Wf(db)
    ensures Wf(Apply(db, op, now)) && Grows(db, Apply(db, op, now))
  {
    hide Wf, Grows, InsertEvent, AckEvent, Enqueue, EnqueueMedia;
    match op
    case Insert(x, gap, pushGap) => InsertKeepsWf(db, x, gap, pushGap, now);
    case Ack(consumer, eventId, b) => AckKeepsWf(db, consumer, eventId, b, now);
    case EnqueueA2A(x, gap) => EnqueueKeepsWf(db, x, gap, now);
    case QueueMedia(x, gap) => QueueMediaKeepsWf(db, x, gap, now);
    case _ => RoutesSet(db, Apply(db, op, now));
  }

  lemma {:induction false} PushSentKeepsWf(db: Db, id: int, at: int, ts: int)
    requires Wf(db)
    ensures Wf(PushSentRow(db, id, at, ts)) && Grows(db, PushSentRow(db, id, at, ts))
  {
    hide Wf, Grows;
    var n := PushAt(db.push, id);
    GrowsSelf(db);
    if n < |db.push| {
      PushRowSet(db, n, db.push[n].(status := Sent, nextRetryAt := at, updatedAt := ts, lastError := ""));
    }
  }

  lemma {:induction false} PushAckedKeepsWf(db: Db, id: int, ts: int)
    requires Wf(db)
    ensures Wf(PushAckedRow(db, id, ts)) && Grows(db, PushAckedRow(db, id, ts))
  {
    hide Wf, Grows;
    var n := PushAt(db.push, id);
    GrowsSelf(db);
    if n < |db.push| {
      PushRowSet(db, n, db.push[n].(status := Acked, updatedAt := ts, lastError := ""));
    }
  }

  lemma {:induction false} PushRetryKeepsWf(db: Db, id: int, attempt: int, at: int, error: string, ts: int)
    requires Wf(db)
    ensures Wf(MarkPushRetry(db, id, attempt, at, error, ts)) && Grows(db, MarkPushRetry(db, id, attempt, at, error, ts))
  {
    hide Wf, Grows;
    var n := PushAt(db.push, id);
    GrowsSelf(db);
    if n < |db.push| {
      PushRowSet(db, n, db.push[n].(status := Retry, attempt := attempt, nextRetryAt := at, updatedAt := ts, lastError := Truncate(error)));
    }
  }

  lemma {:induction false} TargetKeepsWf(db: Db, eventId: string, sessionId: string, sessionKey: string, ts: int)
    requires Wf(db)
    ensures Wf(SetTargetSession(db, eventId, sessionId, sessionKey, ts)) && Grows(db, SetTargetSession(db, eventId, sessionId, sessionKey, ts))
  {
    hide Wf, Grows;
    var n := EventAt(db.events, eventId);
    GrowsSelf(db);
    if n < |db.events| {
      EventRowSet(db, n, db.events[n].(targetSessionId := sessionId, targetSessionKey := sessionKey, updatedAt := ts));
    }
  }

  lemma {:induction false} PushKeepsWf(cfg: Config, db: Db, pc: PushPc, log: PushLog, l: PushLabel, now: int)
    requires Wf(db)
    ensures Wf(PushStep(cfg, db, pc, log, l, now).db) && Grows(db, PushStep(cfg, db, pc, log, l, now).db)
  {
    hide Wf, Grows, PushSentRow, PushAckedRow, MarkPushRetry, SetEventState, SetTargetSession;
    GrowsSelf(db);
    match l
    case CleanupNext =>
      if pc.Cleanup? && pc.left != [] {
        PushAckedKeepsWf(db, pc.left[0].id, now);
      }
    case PushInflight =>
      if pc.Dispatch? && pc.left != [] {
        PushSentKeepsWf(db, pc.left[0].id, now + cfg.PushMaxDelay(), now);
      }
    case PushTarget(sessionId, sessionKey) =>
      if pc.Delivered? {
        TargetKeepsWf(db, pc.pick.eventId, sessionId, sessionKey, now);
      }
    case PushMark(error) =>
      if pc.Delivered? {
        PushSentKeepsWf(db, pc.pick.id, now + ACK_DEADLINE_MS, now);
        PushRetryKeepsWf(db, pc.pick.id, pc.pick.attempt + 1, Backoff.NextRetryAt(now, pc.pick.attempt + 1, cfg.PushMaxDelay()), error, now);
      }
    case PushEvent =>
      if pc.AckingEvent? || pc.FlyingEvent? || pc.SentEvent? {
        EventStateSet(db, pc.pick.eventId, Consumed, now);
        EventStateSet(db, pc.pick.eventId, Pushed, now);
      }
    case _ =>
  }

  lemma {:induction false} A2ARetryKeepsWf(cfg: Config, db: Db, r: A2ARow, error: string, now: int)
    requires Wf(db)
    ensures Wf(RetryRow(cfg, db, r, error, now)) && Grows(db, RetryRow(cfg, db, r, error, now))
  {
    hide Wf, Grows, Backoff.DelayMs, Truncate;
    var n := A2AAt(db.a2a, r.id);
    GrowsSelf(db);
    if n < |db.a2a| {
      A2ARowSet(db, n, RetryRow(cfg, db, r, error, now).a2a[n]);
    }
  }

  lemma {:induction false} A2ASentKeepsWf(db: Db, id: int, ts: int)
    requires Wf(db)
    ensures Wf(A2ASentRow(db, id, ts)) && Grows(db, A2ASentRow(db, id, ts))
  {
    hide Wf, Grows;
    var n := A2AAt(db.a2a, id);
    GrowsSelf(db);
    if n < |db.a2a| {
      A2ARowSet(db, n, db.a2a[n].(status := Sent, updatedAt := ts, lastError := ""));
    }
  }

  lemma {:induction false} A2AKeepsWf(cfg: Config, db: Db, pc: A2APc, log: A2ALog, l: A2ALabel, now: int)
    requires Wf(db)
    ensures Wf(A2AStep(cfg, db, pc, log, l, now).db) && Grows(db, A2AStep(cfg, db, pc, log, l, now).db)
  {
    hide Wf, Grows, RetryRow, A2ASentRow;
    GrowsSelf(db);
    match l
    case A2ANext(ok, error) =>
      if pc.Rows? && pc.left != [] {
        A2ARetryKeepsWf(cfg, db, pc.left[0], error, now);
      }
    case A2AMark(error) =>
      if pc.Published? {
        A2ASentKeepsWf(db, pc.row.id, now);
        A2ARetryKeepsWf(cfg, db, pc.row, error, now);
      }
    case A2ABind =>
      if pc.MarkedSent? {
        RoutesSet(db, BindSent(db, pc.row, now));
      }
    case _ =>
  }

  lemma {:induction false} MediaSentKeepsWf(db: Db, id: int, now: int)
    requires Wf(db)
    ensures Wf(MarkMediaSent(db, id, now)) && Grows(db, MarkMediaSent(db, id, now))
  {
    hide Wf, Grows;
    var n := MediaAt(db.media, id);
    GrowsSelf(db);
    if n < |db.media| {
      MediaRowSet(db, n, db.media[n].(status := Sent, updatedAt := now, lastError := ""));
    }
  }

  lemma {:induction false} MediaFailureKeepsWf(cfg: Config, db: Db, r: MediaRow, error: string, now: int)
    requires Wf(db)
    ensures Wf(MarkMediaFailure(cfg, db, r, error, now)) && Grows(db, MarkMediaFailure(cfg, db, r, error, now))
  {
    hide Wf, Grows, Backoff.DelayMs, Truncate;
    var n := MediaAt(db.media, r.id);
    GrowsSelf(db);
    if n < |db.media| {
      MediaRowSet(db, n, MarkMediaFailure(cfg, db, r, error, now).media[n]);
    }
  }

  lemma {:induction false} MediaKeepsWf(cfg: Config, db: Db, pc: MediaPc, log: MediaLog, l: MediaLabel, now: int)
    requires Wf(db)
    ensures Wf(MediaStep(cfg, db, pc, log, l, now).db) && Grows(db, MediaStep(cfg, db, pc, log, l, now).db)
  {
    hide Wf, Grows, MarkMediaSent, MarkMediaFailure;
    GrowsSelf(db);
    if l.MediaMark? && pc.MediaDelivered? {
      MediaSentKeepsWf(db, pc.row.id, now);
      MediaFailureKeepsWf(cfg, db, pc.row, l.error, now);
    }
  }

  lemma {:induction false} StepKeepsWf(cfg: Config, s: Sys, l: Label)
    requires Wf(s.db)
    ensures Wf(Step(cfg, s, l).db) && Grows(s.db, Step(cfg, s, l).db)
  {
    hide Wf, Grows, Apply, PushStep, A2AStep, MediaStep;
    GrowsSelf(s.db);
    match l
    case Op(op) => OpKeepsWf(s.db, op, s.clock);
    case Push(pl) => PushKeepsWf(cfg, s.db, s.push, s.pushLog, pl, s.clock);
    case A2A(al) => A2AKeepsWf(cfg, s.db, s.a2a, s.a2aLog, al, s.clock);
    case Media(ml) => MediaKeepsWf(cfg, s.db, s.media, s.mediaLog, ml, s.clock);
    case _ =>
  }

  /** From any constrained database, every run keeps the constraints and only grows. */
  lemma {:induction false} RunKeepsWf(cfg: Config, s: Sys, ls: seq<Label>)
    requires Wf(s.db)
    ensures Wf(Run(cfg, s, ls).db) && Grows(s.db, Run(cfg, s, ls).db)
    decreases |ls|
  {
    hide Wf, Grows, Step;
    GrowsSelf(s.db);
    if ls != [] {
      var s' := Step(cfg, s, ls[0]);
      StepKeepsWf(cfg, s, ls[0]);
      RunKeepsWf(cfg, s', ls[1..]);
      GrowsTrans(s.db, s'.db, Run(cfg, s, ls).db);
    }
  }
}
