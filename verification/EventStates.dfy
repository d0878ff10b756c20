/** The event table, the acks and the push outbox agree, although different processes write them and
    a death can fall between a push row's update and its event's. */
module EventStates {
  import opened Wrappers
  import opened Tables
  import opened System
  import opened Schema
  import opened PushDelivery
  import Backoff

  ghost predicate HasAck(acks: map<(string, string), int>, eventId: string) {
    exists c: string :: (c, eventId) in acks
  }

  function PushRowOf(push: seq<PushRow>, eventId: string): Option<PushRow> {
    var n := PushOf(push, eventId);
    if n < |push| then Some(push[n]) else None
  }

  function StatusOf(row: Option<PushRow>): Option<Status> {
    if row.Some? then Some(row.value.status) else None
  }

  /** What an event's state says about its acks and its push row. */
  predicate Agrees(state: EventState, acked: bool, pushed: Option<Status>) {
    && (state == New ==> !acked && (pushed == None || pushed == Some(Pending)))
    && (state == Pushed ==> pushed == Some(Sent) || pushed == Some(Retry))
    && (state == Consumed ==> acked || pushed == Some(Acked))
    && (pushed == Some(Acked) ==> state == Consumed)
  }

  /** The event is one mark behind its push row. */
  predicate Lags(state: EventState, acked: bool, pushed: Option<Status>) {
    || (pushed == Some(Sent) && state == New && !acked)
    || (pushed == Some(Acked) && (state == Pushed || (state == New && !acked)))
  }

  /** The rows whose event update is still to come: the one being marked, and those a crash tore. */
  function Owing(pc: PushPc, log: PushLog): set<int> {
    if pc.AckingEvent? || pc.FlyingEvent? then log.torn + {pc.pick.id} else log.torn
  }

  predicate Fits(state: EventState, acked: bool, row: Option<PushRow>, owing: set<int>) {
    Agrees(state, acked, StatusOf(row)) || (row.Some? && row.value.id in owing && Lags(state, acked, StatusOf(row)))
  }

  ghost predicate EventFits(e: Event, acks: map<(string, string), int>, push: seq<PushRow>, owing: set<int>) {
    Fits(e.state, HasAck(acks, e.eventId), PushRowOf(push, e.eventId), owing)
  }

  ghost predicate Joint(events: seq<Event>, acks: map<(string, string), int>, push: seq<PushRow>, owing: set<int>) {
    forall i :: 0 <= i < |events| ==> EventFits(events[i], acks, push, owing)
  }

  /** The row of the current mark is as the mark's first statement left it; a row once in flight
      owes nothing. */
  ghost predicate MarkHolds(push: seq<PushRow>, pc: PushPc, log: PushLog) {
    match pc
    case AckingEvent(p, _, _) => RowIs(push, p, Acked)
    case FlyingEvent(p, _) => RowIs(push, p, Sent)
    case InFlight(p, _) => p.id !in log.torn
    case Delivered(p, _, _) => p.id !in log.torn
    case SentEvent(p, _) => RowIs(push, p, Sent) && p.id !in log.torn
    case _ => true
  }

  ghost predicate RowIs(push: seq<PushRow>, p: PushPick, status: Status) {
    var n := PushAt(push, p.id);
    n < |push| && push[n].eventId == p.eventId && push[n].status == status
  }

  ghost predicate JointDb(db: Db, owing: set<int>) {
    Joint(db.events, db.acks, db.push, owing)
  }

  lemma {:induction false} PushRowSet(push: seq<PushRow>, pushSeq: int, n: nat, r: PushRow, eventId: string)
    requires WfPush(push, pushSeq) && n < |push| && SamePush(push[n], r)
    ensures PushRowOf(push[n := r], eventId) == if eventId == r.eventId then Some(r) else PushRowOf(push, eventId)
    ensures PushRowOf(push, r.eventId) == Some(push[n])
    ensures eventId != r.eventId && PushRowOf(push, eventId).Some? ==> PushRowOf(push, eventId).value.id != r.id
  {
    var push' := push[n := r];
    var m, m' := PushOf(push, eventId), PushOf(push', eventId);
    assert m < |push| ==> push'[m].eventId == eventId;
    assert m' < |push| ==> push[m'].eventId == eventId;
    PushAtIs(push, pushSeq, n);
    PushAtIs(push', pushSeq, n);
  }

  lemma {:induction false} PushRowWithOneMore(push: seq<PushRow>, r: PushRow, eventId: string)
    requires PushOf(push, r.eventId) == |push|
    ensures PushRowOf(push + [r], eventId) == if eventId == r.eventId then Some(r) else PushRowOf(push, eventId)
  {
    var push' := push + [r];
    var m, m' := PushOf(push, eventId), PushOf(push', eventId);
    assert forall i :: 0 <= i < |push| ==> push'[i] == push[i];
    assert push'[|push|] == r;
  }

  /** One push row and its event move together. */
  lemma {:induction false} PairJoint(db: Db, n: nat, r: PushRow, m: nat, e: Event, owing: set<int>, owing': set<int>)
    requires Wf(db) && JointDb(db, owing)
    requires n < |db.push| && SamePush(db.push[n], r)
    requires m < |db.events| && db.events[m].eventId == r.eventId && SameEvent(db.events[m], e)
    requires Fits(e.state, HasAck(db.acks, e.eventId), Some(r), owing')
    requires forall id :: id != r.id ==> (id in owing <==> id in owing')
    ensures Joint(db.events[m := e], db.acks, db.push[n := r], owing')
  {
    hide Agrees, Lags, HasAck, PushRowOf;
    var events' := db.events[m := e];
    forall i | 0 <= i < |events'| ensures EventFits(events'[i], db.acks, db.push[n := r], owing') {
      PushRowSet(db.push, db.pushSeq, n, r, events'[i].eventId);
      assert i != m ==> events'[i].eventId != r.eventId && EventFits(db.events[i], db.acks, db.push, owing);
    }
  }

  /** The row a pick names, its event, and what they say of each other. */
  lemma {:induction false} PairOf(db: Db, p: PushPick, owing: set<int>) returns (n: nat, m: nat)
    requires Wf(db) && JointDb(db, owing) && PushAt(db.push, p.id) < |db.push| && db.push[PushAt(db.push, p.id)].eventId == p.eventId
    ensures n == PushAt(db.push, p.id) && n < |db.push| && db.push[n].id == p.id && db.push[n].eventId == p.eventId
    ensures m == EventAt(db.events, p.eventId) && m < |db.events| && db.events[m].eventId == p.eventId
    ensures Fits(db.events[m].state, HasAck(db.acks, p.eventId), Some(db.push[n]), owing)
  {
    hide HasAck, Fits;
    n := PushAt(db.push, p.id);
    m := EventAt(db.events, p.eventId);
    assert Known(db.events, db.push[n].eventId);
    PushRowSet(db.push, db.pushSeq, n, db.push[n], p.eventId);
    assert EventFits(db.events[m], db.acks, db.push, owing);
  }

  /** The first statement of a mark: from here on the event is owed its update. */
  lemma {:induction false} RowMarked(db: Db, p: PushPick, r: PushRow, owing: set<int>)
    requires Wf(db) && JointDb(db, owing)
    requires
      var n := PushAt(db.push, p.id);
      && n < |db.push| && db.push[n].eventId == p.eventId && SamePush(db.push[n], r)
      && ((db.push[n].status == Sent && r.status == Acked) || (Open(db.push[n].status) && r.status == Sent))
    ensures Joint(db.events, db.acks, db.push[PushAt(db.push, p.id) := r], owing + {p.id})
  {
    hide JointDb, HasAck, PushRowOf;
    var n, m := PairOf(db, p, owing);
    PairJoint(db, n, r, m, db.events[m], owing, owing + {p.id});
    assert db.events[m := db.events[m]] == db.events;
  }

  lemma {:induction false} AckedRowJoint(db: Db, p: PushPick, owing: set<int>, now: int)
    requires Wf(db) && JointDb(db, owing) && Holds(db.push, p, true)
    ensures JointDb(PushAckedRow(db, p.id, now), owing + {p.id}) && RowIs(PushAckedRow(db, p.id, now).push, p, Acked)
  {
    hide Joint;
    var n := PushAt(db.push, p.id);
    var r := PushAckedRow(db, p.id, now).push[n];
    RowMarked(db, p, r, owing);
    StillThere(db, n, r);
  }

  lemma {:induction false} FlyingRowJoint(db: Db, p: PushPick, owing: set<int>, deadline: int, now: int)
    requires Wf(db) && JointDb(db, owing) && Holds(db.push, p, false)
    ensures JointDb(PushSentRow(db, p.id, deadline, now), owing + {p.id}) && RowIs(PushSentRow(db, p.id, deadline, now).push, p, Sent)
  {
    hide Joint;
    var n := PushAt(db.push, p.id);
    var r := PushSentRow(db, p.id, deadline, now).push[n];
    RowMarked(db, p, r, owing);
    StillThere(db, n, r);
  }

  lemma {:induction false} StillThere(db: Db, n: nat, r: PushRow)
    requires Wf(db) && n < |db.push| && SamePush(db.push[n], r)
    ensures PushAt(db.push[n := r], r.id) == n
  {
    assert WfPush(db.push[n := r], db.pushSeq);
    PushAtIs(db.push[n := r], db.pushSeq, n);
  }

  /** Marking a delivered row SENT once more changes nothing its event says. */
  lemma {:induction false} SentAgainJoint(db: Db, p: PushPick, owing: set<int>, deadline: int, now: int)
    requires Wf(db) && JointDb(db, owing) && Holds(db.push, p, true)
    ensures JointDb(PushSentRow(db, p.id, deadline, now), owing) && RowIs(PushSentRow(db, p.id, deadline, now).push, p, Sent)
  {
    hide Joint, HasAck, PushRowOf;
    var n, m := PairOf(db, p, owing);
    var r := PushSentRow(db, p.id, deadline, now).push[n];
    PairJoint(db, n, r, m, db.events[m], owing, owing);
    assert db.events[m := db.events[m]] == db.events;
    StillThere(db, n, r);
  }

  /** The second statement of a mark settles what was owed. */
  lemma {:induction false} EventMarked(db: Db, p: PushPick, acked: bool, torn: set<int>, owing: set<int>, now: int)
    requires Wf(db) && JointDb(db, owing) && RowIs(db.push, p, if acked then Acked else Sent)
    requires owing == torn || owing == torn + {p.id}
    ensures JointDb(SetEventState(db, p.eventId, if acked then Consumed else Pushed, now), torn - {p.id})
  {
    hide Joint, HasAck, PushRowOf;
    var n, m := PairOf(db, p, owing);
    var e := db.events[m].(state := if acked then Consumed else Pushed, updatedAt := now);
    PairJoint(db, n, db.push[n], m, e, owing, torn - {p.id});
    assert db.push[n := db.push[n]] == db.push;
  }

  lemma {:induction false} RetryJoint(db: Db, p: PushPick, owing: set<int>, attempt: int, at: int, error: string, now: int)
    requires Wf(db) && JointDb(db, owing) && Holds(db.push, p, true) && p.id !in owing
    ensures JointDb(MarkPushRetry(db, p.id, attempt, at, error, now), owing)
  {
    hide Joint, HasAck, PushRowOf, Truncate;
    var n, m := PairOf(db, p, owing);
    PairJoint(db, n, MarkPushRetry(db, p.id, attempt, at, error, now).push[n], m, db.events[m], owing, owing);
    assert db.events[m := db.events[m]] == db.events;
  }

  lemma {:induction false} TargetJoint(db: Db, eventId: string, sessionId: string, sessionKey: string, owing: set<int>, now: int)
    requires JointDb(db, owing)
    ensures JointDb(SetTargetSession(db, eventId, sessionId, sessionKey, now), owing)
  {
    hide Fits, HasAck, PushRowOf;
    var db' := SetTargetSession(db, eventId, sessionId, sessionKey, now);
    forall i | 0 <= i < |db.events| ensures EventFits(db'.events[i], db.acks, db.push, owing) {
      assert EventFits(db.events[i], db.acks, db.push, owing);
    }
  }

  lemma {:induction false} AckJoint(db: Db, consumer: string, eventId: string, b: Option<Tables.Binding>, owing: set<int>, now: int)
    requires Wf(db) && JointDb(db, owing)
    ensures JointDb(AckEvent(db, consumer, eventId, b, now), owing)
  {
    hide PushRowOf, BindForEvent, BindPeer, WfPush, WfA2A, WfMedia, PushReferences, AckReferences;
    var m := EventAt(db.events, eventId);
    if m < |db.events| {
      var db' := RecordAck(db, consumer, eventId, now);
      BindTouchesRoutes(db', eventId, b, BindTime(db.events[m]));
      assert (consumer, eventId) in db'.acks && HasAck(db'.acks, eventId);
      forall i | 0 <= i < |db.events| ensures EventFits(db'.events[i], db'.acks, db.push, owing) {
        assert EventFits(db.events[i], db.acks, db.push, owing);
        assert i != m ==> db.events[i].eventId != eventId && (HasAck(db'.acks, db.events[i].eventId) <==> HasAck(db.acks, db.events[i].eventId));
      }
    }
  }

  lemma {:induction false} BindTouchesRoutes(db: Db, eventId: string, b: Option<Tables.Binding>, at: int)
    ensures b.Some? ==>
      var db' := BindForEvent(db, eventId, b.value.sessionId, b.value.sessionKey, b.value.source, at);
      db' == db.(routes := db'.routes)
  {
  }

  /** A new event id has neither a push row nor an ack. */
  lemma {:induction false} NewEventIsUntouched(db: Db, x: EventInput)
    requires Wf(db) && !EventClash(db.events, x)
    ensures PushOf(db.push, x.eventId) == |db.push| && !HasAck(db.acks, x.eventId)
  {
    NoClashNoId(db.events, x);
    assert !Known(db.events, x.eventId);
    forall i | 0 <= i < |db.push| ensures db.push[i].eventId != x.eventId {
      assert Known(db.events, db.push[i].eventId);
    }
  }

  lemma {:induction false} AddEventJoint(db: Db, x: EventInput, gap: nat, owing: set<int>, ts: int)
    requires Wf(db) && JointDb(db, owing) && x.state == New && !EventClash(db.events, x)
    ensures Joint(AddEvent(db, x, gap, ts).events, db.acks, db.push, owing)
  {
    hide HasAck, Wf;
    NewEventIsUntouched(db, x);
    var events' := AddEvent(db, x, gap, ts).events;
    forall i | 0 <= i < |events'| ensures EventFits(events'[i], db.acks, db.push, owing) {
      assert i < |db.events| ==> events'[i] == db.events[i] && EventFits(db.events[i], db.acks, db.push, owing);
    }
  }

  lemma {:induction false} AddPushJoint(events: seq<Event>, acks: map<(string, string), int>, push: seq<PushRow>, owing: set<int>, r: PushRow)
    requires Joint(events, acks, push, owing) && PushOf(push, r.eventId) == |push| && r.status == Pending
    requires forall i :: 0 <= i < |events| && events[i].eventId == r.eventId ==> events[i].state == New
    ensures Joint(events, acks, push + [r], owing)
  {
    hide HasAck;
    forall i | 0 <= i < |events| ensures EventFits(events[i], acks, push + [r], owing) {
      assert EventFits(events[i], acks, push, owing);
      PushRowWithOneMore(push, r, events[i].eventId);
    }
  }

  lemma {:induction false} AddBothJoint(db: Db, x: EventInput, gap: nat, pushGap: nat, owing: set<int>, ts: int)
    requires Wf(db) && JointDb(db, owing) && x.state == New && !EventClash(db.events, x)
    ensures JointDb(AddPush(AddEvent(db, x, gap, ts), x, pushGap, ts), owing)
  {
    hide Joint, EventClash, Wf, PushOf, EventAt;
    NewEventIsUntouched(db, x);
    NoClashNoId(db.events, x);
    AddEventJoint(db, x, gap, owing, ts);
    var events', r := AddEvent(db, x, gap, ts).events, NewPush(x, db.pushSeq + 1 + pushGap, ts);
    assert forall i :: 0 <= i < |db.events| ==> events'[i] == db.events[i];
    AddPushJoint(events', db.acks, db.push, owing, r);
  }

  lemma {:induction false} InsertJoint(db: Db, x: EventInput, gap: nat, pushGap: nat, owing: set<int>, ts: int)
    requires Wf(db) && JointDb(db, owing) && x.state == New
    ensures JointDb(InsertEvent(db, x, gap, pushGap, ts), owing)
  {
    hide Joint, EventClash, Wf, AddPush;
    if InsertOutcome(db, x) == NoReason {
      AddEventJoint(db, x, gap, owing, ts);
      AddBothJoint(db, x, gap, pushGap, owing, ts);
    }
  }

  lemma {:induction false} OpJoint(db: Db, op: StoreOp, owing: set<int>, now: int)
    requires Wf(db) && JointDb(db, owing) && (op.Insert? ==> op.input.state == New)
    ensures JointDb(Apply(db, op, now), owing)
  {
    hide Joint, Wf, InsertEvent, AckEvent;
    match op
    case Insert(x, gap, pushGap) => InsertJoint(db, x, gap, pushGap, owing, now);
    case Ack(consumer, eventId, b) => AckJoint(db, consumer, eventId, b, owing, now);
    case _ =>
  }

  lemma {:induction false} PushStepJoint(cfg: Config, db: Db, pc: PushPc, log: PushLog, l: PushLabel, now: int)
    requires Wf(db) && PicksHold(db.push, Marked(pc)) && MarkHolds(db.push, pc, log) && JointDb(db, Owing(pc, log))
    ensures
      var r := PushStep(cfg, db, pc, log, l, now);
      JointDb(r.db, Owing(r.pc, r.log)) && MarkHolds(r.db.push, r.pc, r.log)
  {
    hide JointDb, Wf, PushSentRow, PushAckedRow, MarkPushRetry, SetTargetSession, SetEventState, Holds, RowIs;
    match l
    case CleanupNext =>
      if pc.Cleanup? && pc.left != [] {
        AckedRowJoint(db, pc.left[0], log.torn, now);
      }
    case PushInflight =>
      if pc.Dispatch? && pc.left != [] {
        FlyingRowJoint(db, pc.left[0], log.torn, now + cfg.PushMaxDelay(), now);
      }
    case PushTarget(sessionId, sessionKey) =>
      if pc.Delivered? {
        TargetJoint(db, pc.pick.eventId, sessionId, sessionKey, log.torn, now);
        TargetKeepsPush(db, pc.pick.eventId, sessionId, sessionKey, now);
      }
    case PushMark(error) =>
      if pc.Delivered? {
        SentAgainJoint(db, pc.pick, log.torn, now + ACK_DEADLINE_MS, now);
        RetryJoint(db, pc.pick, log.torn, pc.pick.attempt + 1, Backoff.NextRetryAt(now, pc.pick.attempt + 1, cfg.PushMaxDelay()), error, now);
      }
    case PushEvent =>
      if Marked(pc) != pc {
        EventMarked(db, pc.pick, pc.AckingEvent?, log.torn, Owing(pc, log), now);
      }
    case _ =>
  }

  lemma {:induction false} TargetKeepsPush(db: Db, eventId: string, sessionId: string, sessionKey: string, now: int)
    ensures SetTargetSession(db, eventId, sessionId, sessionKey, now).push == db.push
  {
  }

  lemma {:induction false} MarkKept(push: seq<PushRow>, r: PushRow, pc: PushPc, log: PushLog)
    requires MarkHolds(push, pc, log) && WfPush(push + [r], r.id)
    ensures MarkHolds(push + [r], pc, log)
  {
    var push' := push + [r];
    if pc.AckingEvent? || pc.FlyingEvent? || pc.SentEvent? {
      var n := PushAt(push, pc.pick.id);
      assert push'[n] == push[n];
      PushAtIs(push', r.id, n);
    }
  }

  lemma {:induction false} OpKeepsMark(db: Db, op: StoreOp, pc: PushPc, log: PushLog, now: int)
    requires Wf(db) && MarkHolds(db.push, pc, log)
    ensures MarkHolds(Apply(db, op, now).push, pc, log)
  {
    hide MarkHolds, WfPush, Apply, Queues, Grows, InsertEvent;
    OpKeepsWf(db, op, now);
    if op.Insert? {
      InsertApplies(db, op, now);
      InsertedPush(db, op.input, op.gap, op.pushGap, now);
      if Queues(db, op.input) {
        MarkKept(db.push, NewPush(op.input, db.pushSeq + 1 + op.pushGap, now), pc, log);
      }
    } else {
      OnlyInsertsPush(db, op, now);
    }
  }

  lemma {:induction false} InsertApplies(db: Db, op: StoreOp, now: int)
    requires op.Insert?
    ensures Apply(db, op, now) == InsertEvent(db, op.input, op.gap, op.pushGap, now)
  {
  }

  ghost predicate JointSys(cfg: Config, s: Sys) {
    PushSteady(cfg, s) && MarkHolds(s.db.push, s.push, s.pushLog) && JointDb(s.db, Owing(s.push, s.pushLog))
  }

  /** The only caller of InsertIncomingEvent inserts events as NEW. */
  predicate Intake(l: Label) {
    l.Op? && l.op.Insert? ==> l.op.input.state == New
  }

  predicate IntakeOnly(ls: seq<Label>) {
    forall i :: 0 <= i < |ls| ==> Intake(ls[i])
  }

  lemma {:induction false} SteadyPicks(cfg: Config, s: Sys)
    requires PushSteady(cfg, s)
    ensures Wf(s.db) && PicksHold(s.db.push, Marked(s.push))
  {
  }

  lemma {:induction false} StepJoint(cfg: Config, s: Sys, l: Label)
    requires JointSys(cfg, s) && Intake(l)
    ensures JointSys(cfg, Step(cfg, s, l))
  {
    hide Joint, Wf, Apply, PushStep, A2AStep, MediaStep, PushSteady, PicksHold;
    StepPushSteady(cfg, s, l);
    SteadyPicks(cfg, s);
    match l
    case Op(op) =>
      OpJoint(s.db, op, Owing(s.push, s.pushLog), s.clock);
      OpKeepsMark(s.db, op, s.push, s.pushLog, s.clock);
    case Push(pl) => PushStepJoint(cfg, s.db, s.push, s.pushLog, pl, s.clock);
    case A2A(al) => A2AWrites(cfg, s.db, s.a2a, s.a2aLog, al, s.clock);
    case Media(ml) => MediaWrites(cfg, s.db, s.media, s.mediaLog, ml, s.clock);
    case Tick(_) =>
    case Crash => assert Owing(PushIdle, PushCrash(s.push, s.pushLog)) == Owing(s.push, s.pushLog);
  }

  lemma {:induction false} RunJoint(cfg: Config, s: Sys, ls: seq<Label>)
    requires JointSys(cfg, s) && IntakeOnly(ls)
    ensures JointSys(cfg, Run(cfg, s, ls))
    decreases |ls|
  {
    hide JointSys, Step;
    if ls != [] {
      StepJoint(cfg, s, ls[0]);
      RunJoint(cfg, Step(cfg, s, ls[0]), ls[1..]);
    }
  }

  // ------------------------------------------------------------ main theorems

  /** The event's push row is between the two statements of a mark, or a crash left it there. */
  predicate IsTorn(s: Sys, eventId: string) {
    var row := PushRowOf(s.db.push, eventId);
    row.Some? && row.value.id in Owing(s.push, s.pushLog)
  }

  /** In every reachable state, crashes between any two statements and interleavings included, each
      event's state agrees with its acks and its push row, unless that row is torn; and then the
      event is at most one mark behind: NEW and unacked under a SENT row, or not yet CONSUMED
      under an ACKED one. */
  lemma {:induction false} EventAndPushAgree(cfg: Config, clock: nat, ls: seq<Label>, e: Event)
    requires IntakeOnly(ls) && e in Run(cfg, Init(clock), ls).db.events
    ensures
      var s := Run(cfg, Init(clock), ls);
      var acked, pushed := HasAck(s.db.acks, e.eventId), StatusOf(PushRowOf(s.db.push, e.eventId));
      && (!IsTorn(s, e.eventId) ==>
           && (e.state == New <==> !acked && (pushed == None || pushed == Some(Pending)))
           && (e.state == Pushed ==> pushed == Some(Sent) || pushed == Some(Retry))
           && (e.state == Consumed ==> acked || pushed == Some(Acked))
           && (pushed == Some(Acked) ==> e.state == Consumed)
           && (!acked && (pushed == Some(Sent) || pushed == Some(Retry)) ==> e.state == Pushed))
      && (IsTorn(s, e.eventId) ==> Agrees(e.state, acked, pushed) || Lags(e.state, acked, pushed))
  {
    hide Run, PushSteady, MarkHolds, PushRowOf, HasAck;
    InitJoint(cfg, clock);
    RunJoint(cfg, Init(clock), ls);
    var s := Run(cfg, Init(clock), ls);
    var i :| 0 <= i < |s.db.events| && s.db.events[i] == e;
    assert EventFits(s.db.events[i], s.db.acks, s.db.push, Owing(s.push, s.pushLog));
  }

  lemma {:induction false} InitJoint(cfg: Config, clock: nat)
    ensures JointSys(cfg, Init(clock))
  {
    hide PushSteady;
    InitPushSteady(cfg, clock);
  }

  lemma {:induction false} StepTearsNothing(cfg: Config, s: Sys, l: Label)
    requires !l.Crash? && s.pushLog.torn == {}
    ensures Step(cfg, s, l).pushLog.torn == {}
  {
    hide PushSentRow, PushAckedRow, MarkPushRetry, SetTargetSession, SetEventState, A2AStep, MediaStep, Apply;
  }

  lemma {:induction false} CrashFreeTearsNothing(cfg: Config, s: Sys, ls: seq<Label>)
    requires CrashFree(ls) && s.pushLog.torn == {}
    ensures Run(cfg, s, ls).pushLog.torn == {}
    decreases |ls|
  {
    hide Step;
    if ls != [] {
      StepTearsNothing(cfg, s, ls[0]);
      CrashFreeTearsNothing(cfg, Step(cfg, s, ls[0]), ls[1..]);
    }
  }

  /** Without crashes, and outside the two statements of a mark, every event agrees. */
  lemma {:induction false} CrashFreeAgreement(cfg: Config, clock: nat, ls: seq<Label>, e: Event)
    requires IntakeOnly(ls) && CrashFree(ls) && e in Run(cfg, Init(clock), ls).db.events
    requires !Run(cfg, Init(clock), ls).push.AckingEvent? && !Run(cfg, Init(clock), ls).push.FlyingEvent?
    ensures
      var db := Run(cfg, Init(clock), ls).db;
      Agrees(e.state, HasAck(db.acks, e.eventId), StatusOf(PushRowOf(db.push, e.eventId)))
  {
    hide Run, HasAck, PushRowOf;
    EventAndPushAgree(cfg, clock, ls, e);
    CrashFreeTearsNothing(cfg, Init(clock), ls);
  }
}
