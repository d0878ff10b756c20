/** Which events carry a session: only those whose push row was delivered. */
module PushTargets {
  import opened Wrappers
  import opened Tables
  import opened System
  import opened Schema
  import opened PushDelivery
  import Backoff

  /** The event names no session, or its push row was delivered. */
  ghost predicate TargetEarned(e: Event, push: seq<PushRow>, sends: seq<Delivery>) {
    (e.targetSessionId == "" && e.targetSessionKey == "") || RowDelivered(push, e.eventId, sends)
  }

  ghost predicate RowDelivered(push: seq<PushRow>, eventId: string, sends: seq<Delivery>) {
    exists k :: 0 <= k < |push| && push[k].eventId == eventId && Delivery(push[k].id, true) in sends
  }

  ghost predicate AllEarned(db: Db, pc: PushPc, log: PushLog) {
    && (forall i :: 0 <= i < |db.events| ==> TargetEarned(db.events[i], db.push, log.sends))
    && (pc.Delivered? ==> Delivery(pc.pick.id, pc.ok) in log.sends)
  }

  /** The handler stores events without a session. */
  predicate NamesNoSession(l: Label) {
    l.Op? && l.op.Insert? ==> l.op.input.targetSessionId == "" && l.op.input.targetSessionKey == ""
  }

  lemma {:induction false} DeliveredStays(push: seq<PushRow>, push': seq<PushRow>, eventId: string, sends: seq<Delivery>, sends': seq<Delivery>)
    requires RowDelivered(push, eventId, sends) && PushKept(push, push') && sends <= sends'
    ensures RowDelivered(push', eventId, sends')
  {
    var k :| 0 <= k < |push| && push[k].eventId == eventId && Delivery(push[k].id, true) in sends;
    assert SamePush(push[k], push'[k]);
  }

  /** Events that keep their targets have still earned them; new ones name none. */
  lemma {:induction false} EarnedStays(db: Db, db': Db, pc: PushPc, log: PushLog, pc': PushPc, log': PushLog)
    requires AllEarned(db, pc, log) && Grows(db, db') && log.sends <= log'.sends
    requires pc'.Delivered? ==> Delivery(pc'.pick.id, pc'.ok) in log'.sends
    requires forall i :: 0 <= i < |db.events| ==>
      db'.events[i].targetSessionId == db.events[i].targetSessionId && db'.events[i].targetSessionKey == db.events[i].targetSessionKey
    requires forall i :: |db.events| <= i < |db'.events| ==> db'.events[i].targetSessionId == "" && db'.events[i].targetSessionKey == ""
    ensures AllEarned(db', pc', log')
  {
    hide RowDelivered, A2AKept, MediaKept, AcksKept, Fresh;
    forall i | 0 <= i < |db'.events| ensures TargetEarned(db'.events[i], db'.push, log'.sends) {
      if i < |db.events| {
        assert TargetEarned(db.events[i], db.push, log.sends) && SameEvent(db.events[i], db'.events[i]);
        if RowDelivered(db.push, db.events[i].eventId, log.sends) {
          DeliveredStays(db.push, db'.push, db.events[i].eventId, log.sends, log'.sends);
        }
      }
    }
  }

  lemma {:induction false} OpTargets(db: Db, op: StoreOp, now: int)
    requires NamesNoSession(Op(op))
    ensures
      var events, events' := db.events, Apply(db, op, now).events;
      && |events| <= |events'|
      && (forall i :: 0 <= i < |events| ==>
            events'[i].targetSessionId == events[i].targetSessionId && events'[i].targetSessionKey == events[i].targetSessionKey)
      && (forall i :: |events| <= i < |events'| ==> events'[i].targetSessionId == "" && events'[i].targetSessionKey == "")
  {
    hide InsertEvent, EventAt, MediaKnown, Merge;
    if op.Insert? {
      InsertTargets(db, op.input, op.gap, op.pushGap, now);
    }
  }

  lemma {:induction false} InsertTargets(db: Db, x: EventInput, gap: nat, pushGap: nat, now: int)
    ensures
      var events' := InsertEvent(db, x, gap, pushGap, now).events;
      events' == db.events || events' == db.events + [NewEvent(x, db.eventSeq + 1 + gap, now)]
  {
    hide InsertOutcome;
  }

  /** The step that sets a target follows a success. */
  lemma {:induction false} TargetIsEarned(cfg: Config, db: Db, pc: PushPc, log: PushLog, sessionId: string, sessionKey: string, now: int)
    requires Wf(db) && Steady(cfg, db, pc, log) && AllEarned(db, pc, log)
    ensures AllEarned(PushStep(cfg, db, pc, log, PushTarget(sessionId, sessionKey), now).db, pc, log)
  {
    hide Accounted, Bounded, Wf;
    if pc.Delivered? && pc.ok {
      var k := PushAt(db.push, pc.pick.id);
      assert Holds(db.push, pc.pick, true);
      assert db.push[k].eventId == pc.pick.eventId && Delivery(db.push[k].id, true) in log.sends;
      var db' := SetTargetSession(db, pc.pick.eventId, sessionId, sessionKey, now);
      forall i | 0 <= i < |db'.events| ensures TargetEarned(db'.events[i], db'.push, log.sends) {
        assert TargetEarned(db.events[i], db.push, log.sends);
      }
    }
  }

  lemma {:induction false} PushTargetsKept(cfg: Config, db: Db, pc: PushPc, log: PushLog, l: PushLabel, now: int)
    requires !l.PushTarget?
    ensures
      var r := PushStep(cfg, db, pc, log, l, now);
      && |r.db.events| == |db.events| && log.sends <= r.log.sends
      && (forall i :: 0 <= i < |db.events| ==>
            r.db.events[i].targetSessionId == db.events[i].targetSessionId && r.db.events[i].targetSessionKey == db.events[i].targetSessionKey)
      && (r.pc.Delivered? && r.pc != pc ==> Delivery(r.pc.pick.id, r.pc.ok) in r.log.sends)
  {
    hide EventAt, PushAt, Truncate, Backoff.DelayMs, Select, Picks;
  }

  lemma {:induction false} StepEarned(cfg: Config, s: Sys, l: Label)
    requires PushSteady(cfg, s) && AllEarned(s.db, s.push, s.pushLog) && NamesNoSession(l)
    ensures AllEarned(Step(cfg, s, l).db, Step(cfg, s, l).push, Step(cfg, s, l).pushLog)
  {
    hide Wf, Tracked, Grows, TargetEarned, PushStep, A2AStep, MediaStep, Apply, AllEarned;
    var s' := Step(cfg, s, l);
    StepKeepsWf(cfg, s, l);
    GrowsSelf(s.db);
    if l.Push? && l.push.PushTarget? {
      TargetStepIs(cfg, s, l.push);
      TargetIsEarned(cfg, s.db, s.push, s.pushLog, l.push.sessionId, l.push.sessionKey, s.clock);
    } else {
      SendsAreLogged(cfg, s, l);
      EarnedStays(s.db, s'.db, s.push, s.pushLog, s'.push, s'.pushLog);
    }
  }

  lemma {:induction false} TargetStepIs(cfg: Config, s: Sys, l: PushLabel)
    requires l.PushTarget?
    ensures Step(cfg, s, Push(l)).push == s.push && Step(cfg, s, Push(l)).pushLog == s.pushLog
    ensures Step(cfg, s, Push(l)).db == PushStep(cfg, s.db, s.push, s.pushLog, l, s.clock).db
  {
  }

  lemma {:induction false} SendsAreLogged(cfg: Config, s: Sys, l: Label)
    requires AllEarned(s.db, s.push, s.pushLog) && NamesNoSession(l) && !(l.Push? && l.push.PushTarget?)
    ensures
      var s' := Step(cfg, s, l);
      var events, events' := s.db.events, s'.db.events;
      && s.pushLog.sends <= s'.pushLog.sends && |events| <= |events'|
      && (s'.push.Delivered? ==> Delivery(s'.push.pick.id, s'.push.ok) in s'.pushLog.sends)
      && (forall i :: 0 <= i < |events| ==>
            events'[i].targetSessionId == events[i].targetSessionId && events'[i].targetSessionKey == events[i].targetSessionKey)
      && (forall i :: |events| <= i < |events'| ==> events'[i].targetSessionId == "" && events'[i].targetSessionKey == "")
  {
    hide TargetEarned, PushStep, A2AStep, MediaStep, Apply;
    match l
    case Op(op) => OpTargets(s.db, op, s.clock);
    case Push(pl) => PushTargetsKept(cfg, s.db, s.push, s.pushLog, pl, s.clock);
    case A2A(al) => A2AWrites(cfg, s.db, s.a2a, s.a2aLog, al, s.clock);
    case Media(ml) => MediaWrites(cfg, s.db, s.media, s.mediaLog, ml, s.clock);
    case _ =>
  }

  lemma {:induction false} RunEarned(cfg: Config, s: Sys, ls: seq<Label>)
    requires PushSteady(cfg, s) && AllEarned(s.db, s.push, s.pushLog) && forall i :: 0 <= i < |ls| ==> NamesNoSession(ls[i])
    ensures AllEarned(Run(cfg, s, ls).db, Run(cfg, s, ls).push, Run(cfg, s, ls).pushLog)
    decreases |ls|
  {
    hide PushSteady, AllEarned, Step, NamesNoSession;
    if ls != [] {
      StepPushSteady(cfg, s, ls[0]);
      StepEarned(cfg, s, ls[0]);
      RunEarned(cfg, Step(cfg, s, ls[0]), ls[1..]);
    }
  }

  /** In every reachable state, crashes included, an event that carries a session has a push row that was
      delivered. */
  lemma {:induction false} OnlyDeliveredAreTargeted(cfg: Config, clock: nat, ls: seq<Label>, e: Event)
    requires (forall i :: 0 <= i < |ls| ==> NamesNoSession(ls[i])) && e in Run(cfg, Init(clock), ls).db.events
    requires e.targetSessionId != "" || e.targetSessionKey != ""
    ensures
      var s := Run(cfg, Init(clock), ls);
      exists k :: 0 <= k < |s.db.push| && s.db.push[k].eventId == e.eventId && Tally(s.pushLog.sends, s.db.push[k].id, true) > 0
  {
    hide NamesNoSession;
    InitPushSteady(cfg, clock);
    RunEarned(cfg, Init(clock), ls);
    var s := Run(cfg, Init(clock), ls);
    var i :| 0 <= i < |s.db.events| && s.db.events[i] == e;
    assert TargetEarned(s.db.events[i], s.db.push, s.pushLog.sends);
    var k :| 0 <= k < |s.db.push| && s.db.push[k].eventId == e.eventId && Delivery(s.db.push[k].id, true) in s.pushLog.sends;
  }
}
