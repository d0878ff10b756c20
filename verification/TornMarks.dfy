/** What a death between the two statements of a push mark leaves behind, and what repairs it. */
module TornMarks {
  import opened Wrappers
  import opened Tables
  import opened System
  import opened Schema
  import opened PushDelivery
  import opened EventStates
  import Backoff

  // --------------------------------------------------------------- the two runs

  const DEATH_BEFORE_PUSHED := [Push(PushInflight), Crash]

  /** One push and its success, marks complete. */
  const DELIVERY := [Push(PushInflight), Push(PushEvent), Push(PushSend(true)), Push(PushMark("")), Push(PushEvent), Push(PushStop)]

  const DEATH_BEFORE_CONSUMED := [Push(PushStart), Push(CleanupNext), Crash]

  /** The only event and its push row, with no ack. */
  ghost predicate OnePair(s: Sys, eventId: string, state: EventState, status: Status) {
    && s.push.PushIdle? && s.db.acks == map[]
    && |s.db.events| == 1 && s.db.events[0].eventId == eventId && s.db.events[0].state == state
    && |s.db.push| == 1 && s.db.push[0].id == 1 && s.db.push[0].eventId == eventId && s.db.push[0].status == status
  }

  lemma {:induction false} RunPair(cfg: Config, s: Sys, a: Label, b: Label)
    ensures Run(cfg, s, [a, b]) == Step(cfg, Step(cfg, s, a), b)
  {
    hide Step;
    assert [a, b][1..] == [b] && [b][1..] == [];
    assert Run(cfg, Step(cfg, s, a), [b]) == Run(cfg, Step(cfg, Step(cfg, s, a), b), []);
  }

  lemma {:induction false} RunTriple(cfg: Config, s: Sys, a: Label, b: Label, c: Label)
    ensures Run(cfg, s, [a, b, c]) == Step(cfg, Step(cfg, Step(cfg, s, a), b), c)
  {
    hide Step;
    assert [a, b, c][1..] == [b, c];
    RunPair(cfg, Step(cfg, s, a), b, c);
  }

  /** For any first message, a run that leaves its row SENT over a NEW event. */
  lemma {:induction false} CrashTearsInFlightMark(cfg: Config, clock: nat, x: EventInput)
    requires x.pushEnabled && x.state == New
    ensures
      var s := Run(cfg, Init(clock), FirstListing(x) + DEATH_BEFORE_PUSHED);
      OnePair(s, x.eventId, New, Sent) && 1 in s.pushLog.torn
  {
    hide Step, Run;
    FirstListingPicksRow(cfg, clock, x);
    RunConcat(cfg, Init(clock), FirstListing(x), DEATH_BEFORE_PUSHED);
    FlyAndDie(cfg, Run(cfg, Init(clock), FirstListing(x)), x, clock);
  }

  lemma {:induction false} FlyAndDie(cfg: Config, s: Sys, x: EventInput, ts: int)
    requires AboutToPush(s, x, ts) && x.state == New
    ensures
      var s' := Run(cfg, s, DEATH_BEFORE_PUSHED);
      OnePair(s', x.eventId, New, Sent) && 1 in s'.pushLog.torn
  {
    hide Run, Apply, A2AStep, MediaStep, Select;
    RunPair(cfg, s, Push(PushInflight), Crash);
  }

  lemma {:induction false} FlyAndSend(cfg: Config, s: Sys, x: EventInput, ts: int)
    requires AboutToPush(s, x, ts)
    ensures
      var s' := Run(cfg, s, DELIVERY[..3]);
      && s'.push == Delivered(PushPick(1, x.eventId, 0), [], true) && s'.db.acks == map[]
      && |s'.db.events| == 1 && s'.db.events[0].eventId == x.eventId
      && |s'.db.push| == 1 && s'.db.push[0].id == 1 && s'.db.push[0].eventId == x.eventId
  {
    assert DELIVERY[..3] == [Push(PushInflight), Push(PushEvent), Push(PushSend(true))];
    RunTriple(cfg, s, Push(PushInflight), Push(PushEvent), Push(PushSend(true)));
  }

  lemma {:induction false} MarkAndStop(cfg: Config, s: Sys, eventId: string)
    requires s.push == Delivered(PushPick(1, eventId, 0), [], true) && s.db.acks == map[]
    requires |s.db.events| == 1 && s.db.events[0].eventId == eventId
    requires |s.db.push| == 1 && s.db.push[0].id == 1 && s.db.push[0].eventId == eventId
    ensures OnePair(Run(cfg, s, DELIVERY[3..]), eventId, Pushed, Sent)
  {
    assert DELIVERY[3..] == [Push(PushMark("")), Push(PushEvent), Push(PushStop)];
    RunTriple(cfg, s, Push(PushMark("")), Push(PushEvent), Push(PushStop));
  }

  lemma {:induction false} DieBeforeConsumed(cfg: Config, s: Sys, eventId: string)
    requires OnePair(s, eventId, Pushed, Sent)
    ensures
      var s' := Run(cfg, s, DEATH_BEFORE_CONSUMED);
      OnePair(s', eventId, Pushed, Acked) && 1 in s'.pushLog.torn
  {
    assert Select(s.db.push, SentPush(s.db.events), cfg.PushBatch()) == s.db.push;
    RunTriple(cfg, s, Push(PushStart), Push(CleanupNext), Crash);
  }

  /** And a run that delivers it, and dies with the row ACKED over a PUSHED event. */
  lemma {:induction false} CrashTearsAckMark(cfg: Config, clock: nat, x: EventInput)
    requires x.pushEnabled && x.state == New
    ensures
      var s := Run(cfg, Init(clock), FirstListing(x) + DELIVERY + DEATH_BEFORE_CONSUMED);
      OnePair(s, x.eventId, Pushed, Acked) && 1 in s.pushLog.torn
  {
    hide Step, Run;
    FirstListingPicksRow(cfg, clock, x);
    var s := Run(cfg, Init(clock), FirstListing(x));
    RunConcat(cfg, Init(clock), FirstListing(x), DELIVERY);
    FlyAndSend(cfg, s, x, clock);
    RunConcat(cfg, s, DELIVERY[..3], DELIVERY[3..]);
    assert DELIVERY[..3] + DELIVERY[3..] == DELIVERY;
    MarkAndStop(cfg, Run(cfg, s, DELIVERY[..3]), x.eventId);
    RunConcat(cfg, Init(clock), FirstListing(x) + DELIVERY, DEATH_BEFORE_CONSUMED);
    DieBeforeConsumed(cfg, Run(cfg, s, DELIVERY), x.eventId);
  }

  // ------------------------------------------------------------------- repair

  predicate Picking(pc: PushPc, id: int) {
    (pc.AckingEvent? || pc.FlyingEvent? || pc.InFlight? || pc.Delivered? || pc.SentEvent?) && pc.pick.id == id
  }

  /** Row n is ACKED and no longer being marked; event m is its event. */
  ghost predicate Finished(db: Db, pc: PushPc, n: nat, m: nat) {
    && n < |db.push| && db.push[n].status == Acked && !Picking(pc, db.push[n].id)
    && m < |db.events| && db.events[m].eventId == db.push[n].eventId
  }

  predicate AcksIt(l: Label, eventId: string) {
    l.Op? && l.op.Ack? && l.op.eventId == eventId
  }

  predicate AckedWithin(ls: seq<Label>, eventId: string) {
    exists i :: 0 <= i < |ls| && AcksIt(ls[i], eventId)
  }

  /** Rewriting a row picked by the flusher leaves a finished one alone. */
  lemma {:induction false} OtherRow(push: seq<PushRow>, pushSeq: int, n: nat, p: PushPick)
    requires WfPush(push, pushSeq) && n < |push| && p.id != push[n].id
    ensures PushAt(push, p.id) != n
  {
  }

  lemma {:induction false} OtherEvent(db: Db, n: nat, m: nat, p: PushPick, status: Status)
    requires Wf(db) && n < |db.push| && p.id != db.push[n].id && RowIs(db.push, p, status)
    requires m < |db.events| && db.events[m].eventId == db.push[n].eventId
    ensures EventAt(db.events, p.eventId) != m
  {
    PushAtIs(db.push, db.pushSeq, n);
  }

  lemma {:induction false} RowWritesLeave(db: Db, id: int, attempt: int, at: int, error: string, now: int, n: nat)
    requires n < |db.push| && PushAt(db.push, id) != n
    ensures
      var a, b, c := PushAckedRow(db, id, now), PushSentRow(db, id, at, now), MarkPushRetry(db, id, attempt, at, error, now);
      && a.events == b.events == c.events == db.events && |a.push| == |b.push| == |c.push| == |db.push|
      && a.push[n] == b.push[n] == c.push[n] == db.push[n]
  {
    hide PushAt, Truncate;
  }

  lemma {:induction false} EventWriteLeaves(db: Db, eventId: string, state: EventState, now: int, m: nat)
    requires m < |db.events|
    ensures
      var db' := SetEventState(db, eventId, state, now);
      && db'.push == db.push && |db'.events| == |db.events| && db'.events[m].eventId == db.events[m].eventId
      && db'.events[m].state == if EventAt(db.events, eventId) == m then state else db.events[m].state
  {
    hide EventAt;
  }

  lemma {:induction false} TargetLeaves(db: Db, eventId: string, sessionId: string, sessionKey: string, now: int, m: nat)
    requires m < |db.events|
    ensures
      var db' := SetTargetSession(db, eventId, sessionId, sessionKey, now);
      && db'.push == db.push && |db'.events| == |db.events| && db'.events[m].eventId == db.events[m].eventId
      && db'.events[m].state == db.events[m].state
  {
    hide EventAt;
  }

  lemma {:induction false} PushStepLeavesFinished(cfg: Config, db: Db, pc: PushPc, log: PushLog, l: PushLabel, now: int, n: nat, m: nat)
    requires Wf(db) && PicksHold(db.push, Marked(pc)) && MarkHolds(db.push, pc, log) && Finished(db, pc, n, m)
    ensures
      var r := PushStep(cfg, db, pc, log, l, now);
      Finished(r.db, r.pc, n, m) && r.db.events[m].state == db.events[m].state && r.db.events[m].eventId == db.events[m].eventId
  {
    hide Wf, WfPush, Holds, RowIs, PushAckedRow, PushSentRow, MarkPushRetry, SetEventState, SetTargetSession, PushAt, EventAt, Select, Truncate, Backoff.DelayMs;
    WfHasPush(db);
    match l
    case CleanupNext =>
      if pc.Cleanup? && pc.left != [] {
        PickIsNot(db.push, pc.left[0], true, db.pushSeq, n);
        RowWritesLeave(db, pc.left[0].id, 0, 0, "", now, n);
      }
    case PushInflight =>
      if pc.Dispatch? && pc.left != [] {
        PickIsNot(db.push, pc.left[0], false, db.pushSeq, n);
        RowWritesLeave(db, pc.left[0].id, 0, now + cfg.PushMaxDelay(), "", now, n);
      }
    case PushTarget(sessionId, sessionKey) =>
      if pc.Delivered? {
        TargetLeaves(db, pc.pick.eventId, sessionId, sessionKey, now, m);
      }
    case PushMark(error) =>
      if pc.Delivered? {
        OtherRow(db.push, db.pushSeq, n, pc.pick);
        RowWritesLeave(db, pc.pick.id, 0, now + ACK_DEADLINE_MS, "", now, n);
        RowWritesLeave(db, pc.pick.id, pc.pick.attempt + 1, Backoff.NextRetryAt(now, pc.pick.attempt + 1, cfg.PushMaxDelay()), error, now, n);
      }
    case PushEvent =>
      if Marked(pc) != pc {
        OtherEvent(db, n, m, pc.pick, if pc.AckingEvent? then Acked else Sent);
        EventWriteLeaves(db, pc.pick.eventId, if pc.AckingEvent? then Consumed else Pushed, now, m);
      }
    case _ =>
  }

  lemma {:induction false} WfHasPush(db: Db)
    requires Wf(db)
    ensures WfPush(db.push, db.pushSeq)
  {
  }

  lemma {:induction false} PickIsNot(push: seq<PushRow>, p: PushPick, sent: bool, pushSeq: int, n: nat)
    requires WfPush(push, pushSeq) && n < |push| && push[n].status == Acked && Holds(push, p, sent)
    ensures p.id != push[n].id && PushAt(push, p.id) != n
  {
    PushAtIs(push, pushSeq, n);
  }

  lemma {:induction false} AckLeavesFinished(db: Db, consumer: string, eventId: string, b: Option<Tables.Binding>, now: int, pc: PushPc, n: nat, m: nat)
    requires Wf(db) && Finished(db, pc, n, m)
    ensures
      var db' := AckEvent(db, consumer, eventId, b, now);
      && Finished(db', pc, n, m) && db'.events[m].eventId == db.events[m].eventId
      && db'.events[m].state == if eventId == db.events[m].eventId then Consumed else db.events[m].state
  {
    hide BindForEvent, WfPush, WfA2A, WfMedia, PushReferences, AckReferences, SetEventState;
    var k := EventAt(db.events, eventId);
    assert k == m <==> eventId == db.events[m].eventId;
    if k < |db.events| {
      BindTouchesRoutes(RecordAck(db, consumer, eventId, now), eventId, b, BindTime(db.events[k]));
      EventWriteLeaves(if (consumer, eventId) in db.acks then db else db.(acks := db.acks[(consumer, eventId) := now]), eventId, Consumed, now, m);
    }
  }

  lemma {:induction false} InsertLeavesFinished(db: Db, x: EventInput, gap: nat, pushGap: nat, now: int, pc: PushPc, n: nat, m: nat)
    requires Finished(db, pc, n, m)
    ensures
      var db' := InsertEvent(db, x, gap, pushGap, now);
      Finished(db', pc, n, m) && db'.events[m] == db.events[m]
  {
    hide EventClash, PushOf;
  }

  lemma {:induction false} OpLeavesFinished(db: Db, op: StoreOp, now: int, pc: PushPc, n: nat, m: nat)
    requires Wf(db) && Finished(db, pc, n, m)
    ensures
      var db' := Apply(db, op, now);
      && Finished(db', pc, n, m) && db'.events[m].eventId == db.events[m].eventId
      && db'.events[m].state == if AcksIt(Op(op), db.events[m].eventId) then Consumed else db.events[m].state
  {
    hide Wf, AckEvent, InsertEvent, Merge, MediaKnown;
    match op
    case Insert(x, gap, pushGap) => InsertLeavesFinished(db, x, gap, pushGap, now, pc, n, m);
    case Ack(consumer, eventId, b) => AckLeavesFinished(db, consumer, eventId, b, now, pc, n, m);
    case _ =>
  }

  lemma {:induction false} StepLeavesFinished(cfg: Config, s: Sys, l: Label, n: nat, m: nat)
    requires JointSys(cfg, s) && Finished(s.db, s.push, n, m)
    ensures
      var s' := Step(cfg, s, l);
      && Finished(s'.db, s'.push, n, m) && s'.db.events[m].eventId == s.db.events[m].eventId
      && s'.db.events[m].state == if AcksIt(l, s.db.events[m].eventId) then Consumed else s.db.events[m].state
  {
    hide Wf, Joint, MarkHolds, PicksHold, PushSteady, Apply, PushStep, A2AStep, MediaStep;
    SteadyPicks(cfg, s);
    match l
    case Op(op) => OpLeavesFinished(s.db, op, s.clock, s.push, n, m);
    case Push(pl) => PushStepLeavesFinished(cfg, s.db, s.push, s.pushLog, pl, s.clock, n, m);
    case A2A(al) => A2AWrites(cfg, s.db, s.a2a, s.a2aLog, al, s.clock);
    case Media(ml) => MediaWrites(cfg, s.db, s.media, s.mediaLog, ml, s.clock);
    case _ =>
  }

  /** The event of a finished row changes state only by an ack: one left PUSHED by a torn mark
      becomes CONSUMED exactly in the runs that hold an ack of it. */
  lemma {:induction false} OnlyAnAckRepairs(cfg: Config, s: Sys, ls: seq<Label>, n: nat, m: nat)
    requires JointSys(cfg, s) && IntakeOnly(ls) && Finished(s.db, s.push, n, m)
    ensures
      var s' := Run(cfg, s, ls);
      && Finished(s'.db, s'.push, n, m) && s'.db.events[m].eventId == s.db.events[m].eventId
      && s'.db.events[m].state == if AckedWithin(ls, s.db.events[m].eventId) then Consumed else s.db.events[m].state
    decreases |ls|
  {
    hide JointSys, Step, AcksIt;
    if ls != [] {
      StepJoint(cfg, s, ls[0]);
      StepLeavesFinished(cfg, s, ls[0], n, m);
      OnlyAnAckRepairs(cfg, Step(cfg, s, ls[0]), ls[1..], n, m);
      AckedWithinTail(ls, s.db.events[m].eventId);
    }
  }

  lemma {:induction false} AckedWithinTail(ls: seq<Label>, eventId: string)
    requires ls != []
    ensures AckedWithin(ls, eventId) <==> AcksIt(ls[0], eventId) || AckedWithin(ls[1..], eventId)
  {
    hide AcksIt;
    assert forall i :: 0 <= i < |ls[1..]| ==> ls[1..][i] == ls[i + 1];
    if AckedWithin(ls, eventId) && !AcksIt(ls[0], eventId) {
      var i :| 0 <= i < |ls| && AcksIt(ls[i], eventId);
      assert AcksIt(ls[1..][i - 1], eventId);
    }
  }
}
