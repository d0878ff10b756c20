/** Every message sent leaves a route back, even when the process dies between marking the row SENT
    and binding its route. */
module ReplyRoutes {
  import opened Wrappers
  import opened Tables
  import opened System
  import opened Schema
  import opened A2ADelivery
  import opened Routes

  // ---------------------------------------------------------------- the lookup

  datatype MatchedBy = Trace | PeerBinding | PeerLatest

  datatype RouteResult = RouteResult(sessionId: string, sessionKey: string, matchedBy: MatchedBy)

  predicate HasSource(r: A2ARow) {
    r.sourceSessionId != "" || r.sourceSessionKey != ""
  }

  function SentToPeer(peerId: string): A2ARow -> bool {
    (r: A2ARow) => r.targetAgentId == peerId && r.status == Sent && HasSource(r)
  }

  function SentInTrace(peerId: string, traceId: string): A2ARow -> bool {
    (r: A2ARow) => SentToPeer(peerId)(r) && r.traceId == traceId
  }

  predicate Later(a: A2ARow, b: A2ARow) {
    a.createdAt > b.createdAt || (a.createdAt == b.createdAt && a.id > b.id)
  }

  /** SELECT ... WHERE keep ORDER BY created_at DESC, id DESC LIMIT 1. */
  function Latest(rows: seq<A2ARow>, keep: A2ARow -> bool): (out: Option<A2ARow>)
    ensures out == None <==> forall r :: r in rows ==> !keep(r)
    ensures out.Some? ==> out.value in rows && keep(out.value)
    ensures out.Some? ==> forall r :: r in rows && keep(r) && r != out.value ==> !Later(r, out.value)
  {
    if rows == [] then None
    else
      assert rows == [rows[0]] + rows[1..];
      var rest := Latest(rows[1..], keep);
      if keep(rows[0]) && (rest == None || Later(rows[0], rest.value)) then Some(rows[0]) else rest
  }

  /** Trace first, then the peer's route, then whatever was last sent to the peer. */
  function FindReplyRoute(db: Db, peerId: string, traceId: string): Option<RouteResult> {
    if peerId == "" then None
    else
      var byTrace := if traceId == "" then None else Latest(db.a2a, SentInTrace(peerId, traceId));
      if byTrace.Some? then Some(RouteResult(byTrace.value.sourceSessionId, byTrace.value.sourceSessionKey, Trace))
      else if Usable(RouteOf(db, peerId)) then
        Some(RouteResult(db.routes[peerId].sessionId, db.routes[peerId].sessionKey, PeerBinding))
      else
        var byPeer := Latest(db.a2a, SentToPeer(peerId));
        if byPeer.Some? then Some(RouteResult(byPeer.value.sourceSessionId, byPeer.value.sourceSessionKey, PeerLatest)) else None
  }

  /** A message sent to the peer, in the trace if one is named, that names a session. */
  ghost predicate Matches(r: A2ARow, peerId: string, trace: Option<string>) {
    && r.status == Sent && r.targetAgentId == peerId && (r.sourceSessionId != "" || r.sourceSessionKey != "")
    && (trace.Some? ==> r.traceId == trace.value)
  }

  /** found is the session of the newest match, by creation time and then by id. */
  ghost predicate FromNewest(a2a: seq<A2ARow>, peerId: string, trace: Option<string>, found: RouteResult) {
    exists r :: r in a2a && Matches(r, peerId, trace)
      && found.sessionId == r.sourceSessionId && found.sessionKey == r.sourceSessionKey
      && forall x :: x in a2a && Matches(x, peerId, trace) ==> x.createdAt < r.createdAt || (x.createdAt == r.createdAt && x.id <= r.id)
  }

  /** What the lookup answers, in the columns of the two tables. */
  ghost predicate Answers(db: Db, peerId: string, traceId: string, found: Option<RouteResult>) {
    if peerId == "" then found == None
    else if traceId != "" && exists r :: r in db.a2a && Matches(r, peerId, Some(traceId)) then
      found.Some? && found.value.matchedBy == Trace && FromNewest(db.a2a, peerId, Some(traceId), found.value)
    else if peerId in db.routes && (db.routes[peerId].sessionId != "" || db.routes[peerId].sessionKey != "") then
      found == Some(RouteResult(db.routes[peerId].sessionId, db.routes[peerId].sessionKey, PeerBinding))
    else if exists r :: r in db.a2a && Matches(r, peerId, None) then
      found.Some? && found.value.matchedBy == PeerLatest && FromNewest(db.a2a, peerId, None, found.value)
    else found == None
  }

  lemma {:induction false} LatestIsNewest(a2a: seq<A2ARow>, keep: A2ARow -> bool, peerId: string, trace: Option<string>, how: MatchedBy)
    requires forall r :: keep(r) <==> Matches(r, peerId, trace)
    ensures Latest(a2a, keep) == None <==> forall r :: r in a2a ==> !Matches(r, peerId, trace)
    ensures
      var r := Latest(a2a, keep);
      r.Some? ==> FromNewest(a2a, peerId, trace, RouteResult(r.value.sourceSessionId, r.value.sourceSessionKey, how))
  {
    hide Latest, Matches;
  }

  lemma {:induction false} LookupAnswers(db: Db, peerId: string, traceId: string)
    ensures Answers(db, peerId, traceId, FindReplyRoute(db, peerId, traceId))
  {
    hide Latest, FromNewest;
    forall r: A2ARow ensures SentInTrace(peerId, traceId)(r) <==> Matches(r, peerId, Some(traceId)) {
      assert SentToPeer(peerId)(r) <==> Matches(r, peerId, None);
    }
    LatestIsNewest(db.a2a, SentInTrace(peerId, traceId), peerId, Some(traceId), Trace);
    LatestIsNewest(db.a2a, SentToPeer(peerId), peerId, None, PeerLatest);
  }

  // ------------------------------------------------------------------ coverage

  ghost predicate RoutesUsable(routes: map<string, Route>) {
    forall p :: p in routes ==> Usable(Some(routes[p]))
  }

  ghost predicate RoutesAdvance(routes: map<string, Route>, routes': map<string, Route>) {
    forall p :: p in routes ==> p in routes' && Advances(routes[p], routes'[p])
  }

  /** The peer's route is usable and at least as new as the row. */
  ghost predicate Covers(routes: map<string, Route>, r: A2ARow) {
    && r.targetAgentId in routes && Usable(Some(routes[r.targetAgentId]))
    && r.createdAt <= routes[r.targetAgentId].updatedAt
  }

  /** The row's bind has not happened: it is next, or a crash took it away. */
  ghost predicate Unbound(r: A2ARow, pc: A2APc, log: A2ALog) {
    r.id in log.unbound || (pc.MarkedSent? && pc.row.id == r.id)
  }

  ghost predicate RowCovered(r: A2ARow, routes: map<string, Route>, pc: A2APc, log: A2ALog) {
    SentToPeer(r.targetAgentId)(r) && r.targetAgentId != "" && !Unbound(r, pc, log) ==> Covers(routes, r)
  }

  ghost predicate Covered(a2a: seq<A2ARow>, routes: map<string, Route>, pc: A2APc, log: A2ALog, clock: int) {
    && RoutesUsable(routes) && 0 <= clock
    && forall i :: 0 <= i < |a2a| ==> RowCovered(a2a[i], routes, pc, log) && a2a[i].createdAt <= clock
  }

  lemma {:induction false} BindAdvances(db: Db, peerId: string, sessionId: string, sessionKey: string, source: string, updatedAt: int)
    requires RoutesUsable(db.routes)
    ensures
      var routes' := BindPeer(db, peerId, sessionId, sessionKey, source, updatedAt).routes;
      && RoutesUsable(routes') && RoutesAdvance(db.routes, routes')
      && (peerId != "" && (sessionId != "" || sessionKey != "") ==>
            peerId in routes' && updatedAt <= routes'[peerId].updatedAt)
  {
  }

  lemma {:induction false} BindForEventAdvances(db: Db, eventId: string, sessionId: string, sessionKey: string, source: string, updatedAt: int)
    requires RoutesUsable(db.routes)
    ensures
      var routes' := BindForEvent(db, eventId, sessionId, sessionKey, source, updatedAt).routes;
      RoutesUsable(routes') && RoutesAdvance(db.routes, routes')
  {
    hide RoutesUsable, RoutesAdvance, BindPeer;
    RoutesAdvanceSelf(db.routes);
    var n := EventAt(db.events, eventId);
    if n < |db.events| {
      BindAdvances(db, db.events[n].peerId, sessionId, sessionKey, source, updatedAt);
    }
  }

  lemma {:induction false} RoutesAdvanceSelf(routes: map<string, Route>)
    ensures RoutesAdvance(routes, routes)
  {
  }

  lemma {:induction false} AckAdvances(db: Db, consumer: string, eventId: string, b: Option<Tables.Binding>, now: int)
    requires RoutesUsable(db.routes)
    ensures
      var routes' := AckEvent(db, consumer, eventId, b, now).routes;
      RoutesUsable(routes') && RoutesAdvance(db.routes, routes')
  {
    hide RoutesUsable, RoutesAdvance, BindForEvent;
    RoutesAdvanceSelf(db.routes);
    var n := EventAt(db.events, eventId);
    if n < |db.events| && HasRef(b) {
      BindForEventAdvances(RecordAck(db, consumer, eventId, now), eventId, b.value.sessionId, b.value.sessionKey, b.value.source, BindTime(db.events[n]));
    }
  }

  lemma {:induction false} OpAdvances(db: Db, op: StoreOp, now: int)
    requires RoutesUsable(db.routes)
    ensures RoutesUsable(Apply(db, op, now).routes) && RoutesAdvance(db.routes, Apply(db, op, now).routes)
  {
    hide RoutesUsable, RoutesAdvance, BindPeer, BindForEvent, AckEvent;
    RoutesAdvanceSelf(db.routes);
    match op
    case Ack(consumer, eventId, b) => AckAdvances(db, consumer, eventId, b, now);
    case BindSession(peer, id, key, source, at) => BindAdvances(db, peer, id, key, source, at);
    case BindSessionForEvent(eventId, id, key, source, at) => BindForEventAdvances(db, eventId, id, key, source, at);
    case _ =>
  }

  /** Newer routes cover what older ones did. */
  lemma {:induction false} CoverageAdvances(a2a: seq<A2ARow>, routes: map<string, Route>, routes': map<string, Route>, pc: A2APc, log: A2ALog, clock: int)
    requires Covered(a2a, routes, pc, log, clock) && RoutesUsable(routes') && RoutesAdvance(routes, routes')
    ensures Covered(a2a, routes', pc, log, clock)
  {
    forall i | 0 <= i < |a2a| ensures RowCovered(a2a[i], routes', pc, log) {
      assert RowCovered(a2a[i], routes, pc, log);
    }
  }

  lemma {:induction false} EnqueueCovered(a2a: seq<A2ARow>, routes: map<string, Route>, pc: A2APc, log: A2ALog, clock: int, r: A2ARow)
    requires Covered(a2a, routes, pc, log, clock) && r.status == Pending && r.createdAt <= clock
    ensures Covered(a2a + [r], routes, pc, log, clock)
  {
    var a2a' := a2a + [r];
    forall i | 0 <= i < |a2a'| ensures RowCovered(a2a'[i], routes, pc, log) {
      assert i < |a2a| ==> RowCovered(a2a[i], routes, pc, log);
    }
  }

  /** A row that is not SENT after the step, or whose bind is still to come, needs no route yet. */
  lemma {:induction false} RowSetCovered(a2a: seq<A2ARow>, routes: map<string, Route>, pc: A2APc, pc': A2APc, log: A2ALog, clock: int, n: nat, r: A2ARow)
    requires Covered(a2a, routes, pc, log, clock) && n < |a2a| && SameA2A(a2a[n], r)
    requires !pc.MarkedSent? && (r.status != Sent || (pc'.MarkedSent? && pc'.row.id == r.id))
    ensures Covered(a2a[n := r], routes, pc', log, clock)
  {
    var a2a' := a2a[n := r];
    forall i | 0 <= i < |a2a'| ensures RowCovered(a2a'[i], routes, pc', log) {
      assert RowCovered(a2a[i], routes, pc, log);
    }
  }

  lemma {:induction false} QuietCovered(a2a: seq<A2ARow>, routes: map<string, Route>, pc: A2APc, pc': A2APc, log: A2ALog, log': A2ALog, clock: int)
    requires Covered(a2a, routes, pc, log, clock) && log'.unbound == log.unbound && !pc.MarkedSent?
    ensures Covered(a2a, routes, pc', log', clock)
  {
    forall i | 0 <= i < |a2a| ensures RowCovered(a2a[i], routes, pc', log') {
      assert RowCovered(a2a[i], routes, pc, log);
    }
  }

  lemma {:induction false} CrashCovered(a2a: seq<A2ARow>, routes: map<string, Route>, pc: A2APc, log: A2ALog, clock: int)
    requires Covered(a2a, routes, pc, log, clock)
    ensures Covered(a2a, routes, A2AIdle, A2ACrash(pc, log), clock)
  {
    forall i | 0 <= i < |a2a| ensures RowCovered(a2a[i], routes, A2AIdle, A2ACrash(pc, log)) {
      assert RowCovered(a2a[i], routes, pc, log);
    }
  }

  /** The bind that follows the SENT update covers the row. */
  lemma {:induction false} BindCovered(db: Db, row: A2ARow, left: seq<A2ARow>, log: A2ALog, now: int)
    requires WfA2A(db.a2a, db.a2aSeq) && Covered(db.a2a, db.routes, MarkedSent(row, left), log, now) && AwaitsBind(db.a2a, row)
    ensures Covered(db.a2a, BindSent(db, row, now).routes, Rows(left), log, now)
  {
    hide BindPeer, WfA2A;
    var pc, routes' := MarkedSent(row, left), BindSent(db, row, now).routes;
    var at := if row.createdAt == 0 then now else row.createdAt;
    RoutesAdvanceSelf(db.routes);
    BindAdvances(db, row.targetAgentId, row.sourceSessionId, row.sourceSessionKey, "a2a-send", at);
    CoverageAdvances(db.a2a, db.routes, routes', pc, log, now);
    forall i | 0 <= i < |db.a2a| ensures RowCovered(db.a2a[i], routes', Rows(left), log) {
      assert RowCovered(db.a2a[i], routes', pc, log);
      if db.a2a[i].id == row.id {
        SameRow(db.a2a, db.a2aSeq, i, row);
      }
    }
  }

  lemma {:induction false} BindKeepsRows(db: Db, row: A2ARow, now: int)
    ensures BindSent(db, row, now).a2a == db.a2a
  {
  }

  lemma {:induction false} SameRow(a2a: seq<A2ARow>, a2aSeq: int, i: nat, row: A2ARow)
    requires WfA2A(a2a, a2aSeq) && AwaitsBind(a2a, row) && i < |a2a| && a2a[i].id == row.id
    ensures SameA2A(row, a2a[i])
  {
    A2AAtIs(a2a, a2aSeq, i);
  }

  lemma {:induction false} A2AStepCovered(cfg: Config, db: Db, pc: A2APc, log: A2ALog, l: A2ALabel, now: int)
    requires Steady(cfg, db, pc, log, now) && Covered(db.a2a, db.routes, pc, log, now)
    ensures
      var r := A2AStep(cfg, db, pc, log, l, now);
      Covered(r.db.a2a, r.db.routes, r.pc, r.log, now)
  {
    hide Accounted, Covered, Backoff.DelayMs, Snapshot, BindSent, Truncate;
    var r := A2AStep(cfg, db, pc, log, l, now);
    match l
    case A2ANext(ok, error) =>
      if pc.Rows? && pc.left != [] {
        QuietCovered(db.a2a, db.routes, pc, r.pc, log, r.log, now);
        HeadInTable(cfg, db, pc, log, now);
        var n := A2AAt(db.a2a, pc.left[0].id);
        RowSetCovered(db.a2a, db.routes, pc, Rows(pc.left[1..]), log, now, n, RetryRow(cfg, db, pc.left[0], error, now).a2a[n]);
        QuietCovered(db.a2a[n := RetryRow(cfg, db, pc.left[0], error, now).a2a[n]], db.routes, Rows(pc.left[1..]), Rows(pc.left[1..]), log, r.log, now);
      }
    case A2AMark(error) =>
      if pc.Published? {
        var n := A2AAt(db.a2a, pc.row.id);
        RowSetCovered(db.a2a, db.routes, pc, r.pc, log, now, n, r.db.a2a[n]);
      }
    case A2ABind =>
      if pc.MarkedSent? {
        BindKeepsRows(db, pc.row, now);
        BindCovered(db, pc.row, pc.left, log, now);
      }
    case _ =>
      if !pc.MarkedSent? {
        QuietCovered(db.a2a, db.routes, pc, r.pc, log, log, now);
      }
  }

  lemma {:induction false} HeadInTable(cfg: Config, db: Db, pc: A2APc, log: A2ALog, now: int)
    requires Steady(cfg, db, pc, log, now) && pc.Rows? && pc.left != []
    ensures A2AAt(db.a2a, pc.left[0].id) < |db.a2a|
  {
    assert Listed(db.a2a, pc.left[0]);
  }

  ghost predicate CoveredSys(cfg: Config, s: Sys) {
    A2ASteady(cfg, s) && Covered(s.db.a2a, s.db.routes, s.a2a, s.a2aLog, s.clock)
  }

  lemma {:induction false} StepCovered(cfg: Config, s: Sys, l: Label)
    requires CoveredSys(cfg, s)
    ensures CoveredSys(cfg, Step(cfg, s, l))
  {
    hide Tracked, Wf, RowCovered, PushStep, A2AStep, MediaStep, Apply, Enqueues, RoutesUsable, RoutesAdvance;
    StepA2ASteady(cfg, s, l);
    match l
    case Tick(_) =>
    case Op(op) =>
      OnlyEnqueuesA2A(s.db, op, s.clock);
      OpAdvances(s.db, op, s.clock);
      CoverageAdvances(s.db.a2a, s.db.routes, Apply(s.db, op, s.clock).routes, s.a2a, s.a2aLog, s.clock);
      if op.EnqueueA2A? && Enqueues(s.db, op.message) {
        EnqueueCovered(s.db.a2a, Apply(s.db, op, s.clock).routes, s.a2a, s.a2aLog, s.clock, NewA2A(op.message, s.db.a2aSeq + 1 + op.gap, s.clock));
      }
    case Push(pl) => PushWrites(cfg, s.db, s.push, s.pushLog, pl, s.clock);
    case A2A(al) => A2AStepCovered(cfg, s.db, s.a2a, s.a2aLog, al, s.clock);
    case Media(ml) => MediaWrites(cfg, s.db, s.media, s.mediaLog, ml, s.clock);
    case Crash => CrashCovered(s.db.a2a, s.db.routes, s.a2a, s.a2aLog, s.clock);
  }

  lemma {:induction false} RunCovered(cfg: Config, s: Sys, ls: seq<Label>)
    requires CoveredSys(cfg, s)
    ensures CoveredSys(cfg, Run(cfg, s, ls))
    decreases |ls|
  {
    hide CoveredSys, Step;
    if ls != [] {
      StepCovered(cfg, s, ls[0]);
      RunCovered(cfg, Step(cfg, s, ls[0]), ls[1..]);
    }
  }

  // ------------------------------------------------------------ main theorems

  /** In every reachable state each SENT row with a target and a session reference has a usable
      route to its target, at least as new as the row, unless its bind is still to come or was lost
      in a crash. */
  lemma {:induction false} SentRowsHaveRoutes(cfg: Config, clock: nat, ls: seq<Label>, r: A2ARow)
    requires r in Run(cfg, Init(clock), ls).db.a2a && r.status == Sent && HasSource(r) && r.targetAgentId != ""
    ensures
      var s := Run(cfg, Init(clock), ls);
      Unbound(r, s.a2a, s.a2aLog) || Covers(s.db.routes, r)
  {
    InitA2ASteady(cfg, clock);
    RunCovered(cfg, Init(clock), ls);
    var s := Run(cfg, Init(clock), ls);
    var i :| 0 <= i < |s.db.a2a| && s.db.a2a[i] == r;
    assert RowCovered(s.db.a2a[i], s.db.routes, s.a2a, s.a2aLog);
  }

  /** So without crashes, and between a2a flushes, the last fallback of the lookup is never reached. */
  lemma {:induction false} FallbackIsNeverReached(cfg: Config, clock: nat, ls: seq<Label>, peerId: string, traceId: string)
    requires CrashFree(ls) && !Run(cfg, Init(clock), ls).a2a.MarkedSent?
    ensures
      var found := FindReplyRoute(Run(cfg, Init(clock), ls).db, peerId, traceId);
      found.Some? ==> found.value.matchedBy != PeerLatest
  {
    var s := Run(cfg, Init(clock), ls);
    CrashFreeCutsNothing(cfg, Init(clock), ls);
    var byPeer := Latest(s.db.a2a, SentToPeer(peerId));
    if byPeer.Some? && peerId != "" {
      SentRowsHaveRoutes(cfg, clock, ls, byPeer.value);
    }
  }

  /** And in whatever state a crash leaves the tables: once a row with a session reference is SENT to
      a peer, a reply from that peer finds a session, whatever its trace. */
  lemma {:induction false} LookupAlwaysFinds(db: Db, r: A2ARow, traceId: string)
    requires r in db.a2a && r.status == Sent && HasSource(r) && r.targetAgentId != ""
    ensures
      var found := FindReplyRoute(db, r.targetAgentId, traceId);
      found.Some? && (found.value.sessionId != "" || found.value.sessionKey != "")
  {
    assert SentToPeer(r.targetAgentId)(r);
  }

  /** The fallback answers only for a peer one of whose rows lost its bind (or is about to get it). */
  lemma {:induction false} FallbackMeansLostBind(cfg: Config, clock: nat, ls: seq<Label>, peerId: string, traceId: string)
    requires
      var found := FindReplyRoute(Run(cfg, Init(clock), ls).db, peerId, traceId);
      found.Some? && found.value.matchedBy == PeerLatest
    ensures
      var s := Run(cfg, Init(clock), ls);
      exists r :: r in s.db.a2a && SentToPeer(peerId)(r) && Unbound(r, s.a2a, s.a2aLog)
  {
    var s := Run(cfg, Init(clock), ls);
    var byPeer := Latest(s.db.a2a, SentToPeer(peerId));
    SentRowsHaveRoutes(cfg, clock, ls, byPeer.value);
  }
}
