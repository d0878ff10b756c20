/** The declared unique indexes that the store only checks when a row is inserted. */
module Indexes {
  import opened Wrappers
  import opened Tables
  import opened System
  import opened Schema
  import A = A2ADelivery
  import Backoff
  import Intake

  /** Two events that one of the unique indexes forbids to be in the table together. */
  predicate Conflict(e: Event, f: Event) {
    || (e.messageId != "" && e.messageId == f.messageId)
    || (e.peerId == f.peerId && e.hash == f.hash)
    || (e.a2aMessageId != "" && e.a2aMessageId == f.a2aMessageId)
  }

  ghost predicate EventIndexes(events: seq<Event>) {
    forall i, j :: 0 <= i < j < |events| ==> !Conflict(events[i], events[j])
  }

  ghost predicate A2AIndex(a2a: seq<A2ARow>) {
    forall i, j :: 0 <= i < j < |a2a| ==> a2a[i].messageId != a2a[j].messageId
  }

  ghost predicate IndexesHold(db: Db) {
    Wf(db) && EventIndexes(db.events) && A2AIndex(db.a2a)
  }

  lemma {:induction false} EventsStayIndexed(events: seq<Event>, events': seq<Event>)
    requires EventIndexes(events) && |events'| == |events| && EventsKept(events, events')
    ensures EventIndexes(events')
  {
    forall i, j | 0 <= i < j < |events'| ensures !Conflict(events'[i], events'[j]) {
      assert SameEvent(events[i], events'[i]) && SameEvent(events[j], events'[j]) && !Conflict(events[i], events[j]);
    }
  }

  lemma {:induction false} InsertIndexed(db: Db, x: EventInput, gap: nat, pushGap: nat, ts: int)
    requires Wf(db) && EventIndexes(db.events)
    ensures EventIndexes(InsertEvent(db, x, gap, pushGap, ts).events)
  {
    hide InsertEvent, Wf;
    Intake.InsertedEvents(db, x, gap, pushGap, ts);
    if !EventClash(db.events, x) {
      assert forall i :: 0 <= i < |db.events| ==> !Clashes(db.events[i], x);
    }
  }

  lemma {:induction false} A2AAddsNoRow(cfg: Config, db: Db, pc: A2APc, log: A2ALog, l: A2ALabel, now: int)
    ensures |A2AStep(cfg, db, pc, log, l, now).db.a2a| == |db.a2a|
  {
    hide Backoff.DelayMs, Truncate;
  }

  lemma {:induction false} A2AStaysIndexed(a2a: seq<A2ARow>, a2a': seq<A2ARow>)
    requires A2AIndex(a2a) && |a2a'| == |a2a| && A2AKept(a2a, a2a')
    ensures A2AIndex(a2a')
  {
    forall i, j | 0 <= i < j < |a2a'| ensures a2a'[i].messageId != a2a'[j].messageId {
      assert SameA2A(a2a[i], a2a'[i]) && SameA2A(a2a[j], a2a'[j]);
    }
  }

  lemma {:induction false} StepKeepsEventIndexes(cfg: Config, s: Sys, l: Label)
    requires Wf(s.db) && EventIndexes(s.db.events)
    ensures EventIndexes(Step(cfg, s, l).db.events)
  {
    hide Wf, EventIndexes, EventsKept, InsertEvent, PushStep, A2AStep, MediaStep;
    if l.Op? && l.op.Insert? {
      InsertIndexed(s.db, l.op.input, l.op.gap, l.op.pushGap, s.clock);
    } else {
      Intake.EventsStay(cfg, s, l);
      EventsStayIndexed(s.db.events, Step(cfg, s, l).db.events);
    }
  }

  lemma {:induction false} StepKeepsA2AIndex(cfg: Config, s: Sys, l: Label)
    requires Wf(s.db) && A2AIndex(s.db.a2a)
    ensures A2AIndex(Step(cfg, s, l).db.a2a)
  {
    hide Wf, EventsKept, PushStep, A2AStep, MediaStep, Apply;
    StepKeepsWf(cfg, s, l);
    match l
    case Op(op) => A.OnlyEnqueuesA2A(s.db, op, s.clock);
    case Push(pl) => PushWrites(cfg, s.db, s.push, s.pushLog, pl, s.clock);
    case A2A(al) =>
      A2AAddsNoRow(cfg, s.db, s.a2a, s.a2aLog, al, s.clock);
      A2AStaysIndexed(s.db.a2a, Step(cfg, s, l).db.a2a);
    case Media(ml) => MediaWrites(cfg, s.db, s.media, s.mediaLog, ml, s.clock);
    case _ =>
  }

  /** In every run no two rows ever violate a unique index: no later update brings one about. */
  lemma {:induction false} RunKeepsIndexes(cfg: Config, s: Sys, ls: seq<Label>)
    requires IndexesHold(s.db)
    ensures IndexesHold(Run(cfg, s, ls).db)
    decreases |ls|
  {
    hide Wf, EventIndexes, A2AIndex, Step, Grows;
    if ls != [] {
      StepKeepsWf(cfg, s, ls[0]);
      StepKeepsEventIndexes(cfg, s, ls[0]);
      StepKeepsA2AIndex(cfg, s, ls[0]);
      RunKeepsIndexes(cfg, Step(cfg, s, ls[0]), ls[1..]);
    }
  }
}
