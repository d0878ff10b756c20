/** The push flush as it is executed: a run of the system that acknowledges what was SENT and delivers
    what is due. */
module PushFlush {
  import opened Wrappers
  import opened Tables
  import opened System
  import opened Schema
  import opened Store
  import opened Batches
  import opened Dispatchers
  import Backoff
  import Q = PushDelivery
  import S = Sessions

  datatype PushStats = PushStats(sent: nat, retried: nat, skipped: nat, sessionUnavailable: bool)

  /** Where the flush stands after the labels so far, and what it has delivered. */
  ghost predicate PushAtPc(cfg: Config, es: EventStore, s: Sys, ls: seq<Label>, pc: PushPc, sends: seq<Delivery>)
    reads es
  {
    var cur := Run(cfg, s, ls);
    At(es, cur) && cur.push == pc && CrashFree(ls) && cur.pushLog.sends == s.pushLog.sends + sends
  }

  // What becomes of the rows.

  function PushId(r: PushRow): int {
    r.id
  }

  /** The row after its delivery: SENT, to be acknowledged in fifteen seconds; or RETRY, one attempt on,
      and due when that attempt's delay is over. */
  ghost function PushMarked(cfg: Config, row: PushRow, ok: bool): PushRow -> bool {
    var most := if cfg.pushMaxDelay <= 0 then 300_000 else cfg.pushMaxDelay;
    (r: PushRow) =>
      && SamePush(row, r)
      && (ok ==> r.status == Sent && r.attempt == row.attempt && r.nextRetryAt == r.updatedAt + 15_000)
      && (!ok ==> r.status == Retry && r.attempt == row.attempt + 1 && r.nextRetryAt == r.updatedAt + Backoff.DelayMs(row.attempt + 1, most))
  }

  ghost function PushDoneAs(cfg: Config, rows: seq<PushRow>, world: nat -> Turn): (nat, PushRow) -> bool {
    (j: nat, r: PushRow) => j < |rows| && PushMarked(cfg, rows[j], world(j).ok)(r)
  }

  /** The row after phase 1: ACKED, its attempts as they were. */
  ghost function CleanedUp(row: PushRow): PushRow -> bool {
    (r: PushRow) => SamePush(row, r) && r.status == Acked && r.attempt == row.attempt
  }

  ghost function CleanedAs(rows: seq<PushRow>): (nat, PushRow) -> bool {
    (j: nat, r: PushRow) => j < |rows| && CleanedUp(rows[j])(r)
  }

  /** The deliveries of the first n rows, in order. */
  ghost function PushSends(rows: seq<PushRow>, world: nat -> Turn, n: nat): (sends: seq<Delivery>)
    requires n <= |rows|
  {
    seq(n, j requires 0 <= j < n => Delivery(rows[j].id, world(j).ok))
  }

  /** The events named now have the session for a target; the others keep theirs. */
  ghost predicate TargetsMove(events: seq<Event>, events': seq<Event>, hit: set<string>, session: S.Session) {
    |events| <= |events'| && forall m :: 0 <= m < |events| ==>
      && events'[m].eventId == events[m].eventId
      && (if events[m].eventId in hit
          then events'[m].targetSessionId == session.sessionId && events'[m].targetSessionKey == session.key
          else events'[m].targetSessionId == events[m].targetSessionId && events'[m].targetSessionKey == events[m].targetSessionKey)
  }

  lemma {:induction false} TargetsMoveOn(a: seq<Event>, b: seq<Event>, c: seq<Event>, first: set<string>, second: set<string>, session: S.Session)
    requires TargetsMove(a, b, first, session) && TargetsMove(b, c, second, session)
    ensures TargetsMove(a, c, first + second, session)
  {
  }

  lemma {:induction false} TargetsStay(events: seq<Event>, session: S.Session)
    ensures TargetsMove(events, events, {}, session)
  {
  }

  /** The event a delivery gives a target: that of a row that was delivered, to a session with a channel
      and a target of its own. */
  ghost function Hit(row: PushRow, ok: bool, session: S.Session): set<string> {
    if ok && S.ParseSessionKey(session.key).channel != "" && S.ParseSessionKey(session.key).target != "" then {row.eventId} else {}
  }

  ghost function HitBy(rows: seq<PushRow>, world: nat -> Turn, n: nat, session: S.Session): set<string>
    requires n <= |rows|
  {
    if n == 0 then {} else HitBy(rows, world, n - 1, session) + Hit(rows[n - 1], world(n - 1).ok, session)
  }

  lemma {:induction false} OpKeepsTargets(db: Db, op: StoreOp, now: int, session: S.Session)
    ensures TargetsMove(db.events, Apply(db, op, now).events, {}, session)
    ensures db.push <= Apply(db, op, now).push
  {
    hide InsertOutcome, EventAt, MediaKnown, Merge;
    if op.Insert? {
      Q.InsertedPush(db, op.input, op.gap, op.pushGap, now);
    } else {
      Q.OnlyInsertsPush(db, op, now);
    }
  }

  /** Others add push rows and events, and leave those there are and their targets alone. */
  lemma {:induction false} OutsideAddsPush(cfg: Config, s: Sys, ls: seq<Label>, session: S.Session)
    requires AllOutside(ls)
    ensures s.db.push <= Run(cfg, s, ls).db.push && TargetsMove(s.db.events, Run(cfg, s, ls).db.events, {}, session)
    decreases |ls|
  {
    hide Apply;
    if ls != [] {
      assert Outside(ls[0]);
      if ls[0].Op? {
        OpKeepsTargets(s.db, ls[0].op, s.clock, session);
      }
      var s' := Step(cfg, s, ls[0]);
      OutsideAddsPush(cfg, s', ls[1..], session);
      TargetsMoveOn(s.db.events, s'.db.events, Run(cfg, s, ls).db.events, {}, {}, session);
    }
  }

  method PushPause(es: EventStore, ghost cfg: Config, others: seq<Label>, ghost s: Sys, ghost ls: seq<Label>, ghost pc: PushPc, ghost sends: seq<Delivery>, ghost session: S.Session)
    returns (ghost ls': seq<Label>)
    requires PushAtPc(cfg, es, s, ls, pc, sends) && AllOutside(others)
    modifies es
    ensures PushAtPc(cfg, es, s, ls', pc, sends)
    ensures old(es.db).push <= es.db.push && TargetsMove(old(es.db).events, es.db.events, {}, session)
  {
    hide Step;
    Meanwhile(es, others, cfg, Run(cfg, s, ls));
    ls' := ls + others;
    RunConcat(cfg, s, ls, others);
    OutsideAddsPush(cfg, Run(cfg, s, ls), others, session);
    assert forall j :: 0 <= j < |others| ==> Outside(others[j]);
  }

  /** One more label of the flusher. */
  lemma {:induction false} PushAdvances(cfg: Config, es: EventStore, s: Sys, ls: seq<Label>, pc: PushPc, sends: seq<Delivery>, l: PushLabel)
    requires PushAtPc(cfg, es, s, ls, pc, sends)
    ensures
      var cur := Run(cfg, s, ls);
      && Run(cfg, s, ls + [Push(l)]) == Step(cfg, cur, Push(l)) && CrashFree(ls + [Push(l)])
      && cur.db == es.db && cur.clock == es.clock && cur.push == pc
  {
    RunSnoc(cfg, s, ls, Push(l));
  }

  /** Both statements of a mark, one after the other. */
  lemma {:induction false} MarkAdvances(cfg: Config, es: EventStore, s: Sys, ls: seq<Label>, pc: PushPc, sends: seq<Delivery>, l: PushLabel)
    requires PushAtPc(cfg, es, s, ls, pc, sends)
    ensures
      var cur, ls' := Run(cfg, s, ls), ls + [Push(l)] + [Push(PushEvent)];
      && Run(cfg, s, ls') == Step(cfg, Step(cfg, cur, Push(l)), Push(PushEvent)) && CrashFree(ls')
      && cur.db == es.db && cur.clock == es.clock && cur.push == pc
  {
    hide Step;
    PushAdvances(cfg, es, s, ls, pc, sends, l);
    RunSnoc(cfg, s, ls + [Push(l)], Push(PushEvent));
  }

  lemma {:induction false} AckMark(cfg: Config, s: Sys, left: seq<PushPick>, since: int)
    requires s.push == Cleanup(left, since) && left != []
    ensures Step(cfg, Step(cfg, s, Push(CleanupNext)), Push(PushEvent))
         == s.(db := MarkPushAcked(s.db, left[0].id, left[0].eventId, s.clock), push := Cleanup(left[1..], since), pushLog := Mended(s.pushLog, left[0].id))
  {
    hide PushAckedRow, SetEventState;
  }

  lemma {:induction false} FlightMark(cfg: Config, s: Sys, pick: PushPick, left: seq<PushPick>)
    requires s.push == Dispatch([pick] + left)
    ensures Step(cfg, Step(cfg, s, Push(PushInflight)), Push(PushEvent))
         == s.(db := MarkPushSent(s.db, pick.id, pick.eventId, s.clock + cfg.PushMaxDelay(), s.clock), push := InFlight(pick, left), pushLog := Mended(s.pushLog, pick.id))
  {
    hide PushSentRow, SetEventState;
    assert ([pick] + left)[1..] == left;
  }

  lemma {:induction false} SendStep(cfg: Config, s: Sys, pick: PushPick, left: seq<PushPick>, ok: bool)
    requires s.push == InFlight(pick, left)
    ensures Step(cfg, s, Push(PushSend(ok)))
         == s.(push := Delivered(pick, left, ok), pushLog := s.pushLog.(sends := s.pushLog.sends + [Delivery(pick.id, ok)]))
  {
  }

  lemma {:induction false} TargetStep(cfg: Config, s: Sys, pick: PushPick, left: seq<PushPick>, session: S.Session)
    requires s.push == Delivered(pick, left, true)
    ensures Step(cfg, s, Push(PushTarget(session.sessionId, session.key)))
         == s.(db := SetTargetSession(s.db, pick.eventId, session.sessionId, session.key, s.clock))
  {
    hide SetTargetSession;
  }

  lemma {:induction false} SentMark(cfg: Config, s: Sys, pick: PushPick, left: seq<PushPick>, error: string)
    requires s.push == Delivered(pick, left, true)
    ensures Step(cfg, Step(cfg, s, Push(PushMark(error))), Push(PushEvent))
         == s.(db := MarkPushSent(s.db, pick.id, pick.eventId, s.clock + ACK_DEADLINE_MS, s.clock), push := Dispatch(left), pushLog := Mended(s.pushLog, pick.id))
  {
    hide PushSentRow, SetEventState;
  }

  lemma {:induction false} RetryMark(cfg: Config, s: Sys, pick: PushPick, left: seq<PushPick>, error: string)
    requires s.push == Delivered(pick, left, false)
    ensures
      var at := Backoff.NextRetryAt(s.clock, pick.attempt + 1, cfg.PushMaxDelay());
      Step(cfg, s, Push(PushMark(error))) == s.(db := MarkPushRetry(s.db, pick.id, pick.attempt + 1, at, error, s.clock), push := Dispatch(left))
  {
    hide MarkPushRetry, Backoff.DelayMs;
  }

  /** What phase 1 lists. */
  function FirstSent(cfg: Config, s: Sys): seq<PushRow> {
    Select(s.db.push, SentPush(s.db.events), cfg.PushBatch())
  }

  lemma {:induction false} SentInOrder(cfg: Config, s: Sys)
    requires Wf(s.db)
    ensures
      var rows := FirstSent(cfg, s);
      Ascending(s.db.push, PushId) && Ascending(rows, PushId) && forall r :: r in rows ==> r in s.db.push
  {
    SelectOrdered(s.db.push, SentPush(s.db.events), cfg.PushBatch(), PushId);
  }

  /** An UPDATE of a row in the table, by its id, moves that row alone. */
  lemma {:induction false} OnePushRow(db: Db, row: PushRow)
    requires Wf(db) && row in db.push
    ensures PushAt(db.push, row.id) < |db.push| && db.push[PushAt(db.push, row.id)] == row
    ensures forall k :: 0 <= k < |db.push| ==> (db.push[k].id == row.id <==> k == PushAt(db.push, row.id))
  {
    hide WfA2A, WfMedia, WfEvents, PushReferences, AckReferences;
    var n: nat :| n < |db.push| && db.push[n] == row;
    Q.PushAtIs(db.push, db.pushSeq, n);
    forall k: nat | k < |db.push| && db.push[k].id == row.id ensures k == n {
      Q.PushAtIs(db.push, db.pushSeq, k);
    }
  }

  lemma {:induction false} OneMoreCleaned(cfg: Config, s: Sys, db: Db, rows: seq<PushRow>, i: nat, now: int)
    requires Wf(s.db) && Wf(db) && rows == FirstSent(cfg, s) && i < |rows|
    requires Through(s.db.push, db.push, rows, i, PushId, CleanedAs(rows))
    ensures Through(s.db.push, MarkPushAcked(db, rows[i].id, rows[i].eventId, now).push, rows, i + 1, PushId, CleanedAs(rows))
  {
    hide Wf, Through, FirstSent, SetEventState;
    SentInOrder(cfg, s);
    assert rows[i] in rows;
    NextAsListed(s.db.push, db.push, rows, i, PushId, CleanedAs(rows));
    OnePushRow(db, rows[i]);
    var db' := PushAckedRow(db, rows[i].id, now);
    assert Moves(db.push, db'.push, PushId, rows[i].id, CleanedUp(rows[i]));
    ThroughOneMore(s.db.push, db.push, db'.push, rows, i, PushId, CleanedAs(rows), CleanedUp(rows[i]));
    EventStateKeepsPush(db', rows[i].eventId, Consumed, now);
  }

  lemma {:induction false} EventStateKeepsPush(db: Db, eventId: string, state: EventState, now: int)
    ensures SetEventState(db, eventId, state, now).push == db.push
  {
  }

  lemma {:induction false} CleanedThrough(cfg: Config, s: Sys, ls: seq<Label>, push: seq<PushRow>, db: Db, rows: seq<PushRow>, i: nat, now: int)
    requires Wf(s.db) && Run(cfg, s, ls).db == db && rows == FirstSent(cfg, s) && i < |rows| && push <= db.push
    requires Through(s.db.push, push, rows, i, PushId, CleanedAs(rows))
    ensures Through(s.db.push, MarkPushAcked(db, rows[i].id, rows[i].eventId, now).push, rows, i + 1, PushId, CleanedAs(rows))
  {
    hide Run, Wf, Through, FirstSent, MarkPushAcked;
    RunKeepsWf(cfg, s, ls);
    ThroughMore(s.db.push, push, db.push, rows, i, PushId, CleanedAs(rows));
    OneMoreCleaned(cfg, s, db, rows, i, now);
  }

  /** Phase 1: acknowledge every row that is still SENT. */
  method CleanUp(es: EventStore, cfg: Config, pauses: nat -> seq<Label>, ghost s: Sys) returns (since: int, ghost ls: seq<Label>)
    requires At(es, s) && s.push.PushIdle? && forall i: nat :: AllOutside(pauses(i))
    modifies es
    ensures since == old(es.clock) && PushAtPc(cfg, es, s, ls, Cleanup([], since), [])
    ensures Wf(s.db) ==> var rows := FirstSent(cfg, s); Through(s.db.push, es.db.push, rows, |rows|, PushId, CleanedAs(rows))
  {
    hide AllOutside, Run, Through, Wf, MarkPushAcked, Picks, Moves, SetEventState, CleanedAs, ListsFirst, SentWithEvent;
    since := es.clock;
    var rows := es.ListSentPushOutbox(cfg.pushBatch);
    ghost var nobody := S.Session("", 0, "");
    ThroughNone(s.db.push, rows, PushId, CleanedAs(rows));
    ghost var picks := Picks(rows);
    ls := [Push(PushStart)];
    OneStep(cfg, s, Push(PushStart));
    assert picks[0..] == picks;
    for i := 0 to |rows|
      invariant PushAtPc(cfg, es, s, ls, Cleanup(picks[i..], since), [])
      invariant Wf(s.db) ==> Through(s.db.push, es.db.push, rows, i, PushId, CleanedAs(rows))
    {
      ghost var push := es.db.push;
      ls := PushPause(es, cfg, pauses(i), s, ls, Cleanup(picks[i..], since), [], nobody);
      MarkAdvances(cfg, es, s, ls, Cleanup(picks[i..], since), [], CleanupNext);
      AckMark(cfg, Run(cfg, s, ls), picks[i..], since);
      assert picks[i..][1..] == picks[i + 1..];
      if Wf(s.db) {
        CleanedThrough(cfg, s, ls, push, es.db, rows, i, es.clock);
      }
      es.MarkPushAcked(rows[i].id, rows[i].eventId);
      ls := ls + [Push(CleanupNext)] + [Push(PushEvent)];
    }
    assert picks[|rows|..] == [];
  }

  /** The row is in flight: SENT ahead of its delivery, its attempts as listed. */
  ghost predicate InFlightRow(push: seq<PushRow>, row: PushRow) {
    exists r :: r in push && SamePush(row, r) && r.attempt == row.attempt
  }

  /** The two marks of a delivered row, whatever the rest of the row is by then. */
  lemma {:induction false} DeliveryMoves(cfg: Config, db: Db, row: PushRow, error: string, now: int)
    requires Wf(db) && InFlightRow(db.push, row)
    ensures Moves(db.push, MarkPushSent(db, row.id, row.eventId, now + 15_000, now).push, PushId, row.id, PushMarked(cfg, row, true))
    ensures
      var delay := Backoff.DelayMs(row.attempt + 1, cfg.PushMaxDelay());
      Moves(db.push, MarkPushRetry(db, row.id, row.attempt + 1, now + delay, error, now).push, PushId, row.id, PushMarked(cfg, row, false))
  {
    hide Wf, Truncate, Backoff.DelayMs, SetEventState;
    var r :| r in db.push && SamePush(row, r) && r.attempt == row.attempt;
    OnePushRow(db, r);
    EventStateKeepsPush(PushSentRow(db, row.id, now + 15_000, now), row.eventId, Pushed, now);
  }

  ghost function StillThat(row: PushRow): PushRow -> bool {
    (r: PushRow) => SamePush(row, r)
  }

  lemma {:induction false} FlightMarked(cfg: Config, s: Sys, ls: seq<Label>, db: Db, row: PushRow, deadline: int, now: int, session: S.Session)
    requires Run(cfg, s, ls).db == db
    ensures
      var db' := MarkPushSent(db, row.id, row.eventId, deadline, now);
      && TargetsMove(db.events, db'.events, {}, session)
      && (Wf(s.db) && row in db.push ==> InFlightRow(db'.push, row) && Moves(db.push, db'.push, PushId, row.id, StillThat(row)))
  {
    hide Run, Wf, Moves, MarkPushSent, InFlightRow, TargetsMove;
    MarksKeepTargets(db, row.id, row.eventId, 0, deadline, "", now, session);
    if Wf(s.db) && row in db.push {
      RunKeepsWf(cfg, s, ls);
      FlightMoves(db, row, deadline, now);
    }
  }

  /** The mark ahead of a delivery. */
  lemma {:induction false} FlightMoves(db: Db, row: PushRow, deadline: int, now: int)
    requires Wf(db) && row in db.push
    ensures
      var push' := MarkPushSent(db, row.id, row.eventId, deadline, now).push;
      InFlightRow(push', row) && Moves(db.push, push', PushId, row.id, StillThat(row))
  {
    hide Wf, SetEventState;
    OnePushRow(db, row);
    var n, db' := PushAt(db.push, row.id), PushSentRow(db, row.id, deadline, now);
    assert SamePush(row, db'.push[n]) && db'.push[n] in db'.push;
    EventStateKeepsPush(db', row.eventId, Pushed, now);
  }

  lemma {:induction false} TargetReached(db: Db, row: PushRow, session: S.Session, now: int)
    requires Wf(db)
    ensures
      var db' := SetTargetSession(db, row.eventId, session.sessionId, session.key, now);
      db'.push == db.push && TargetsMove(db.events, db'.events, {row.eventId}, session)
  {
    hide WfPush, WfA2A, WfMedia, PushReferences, AckReferences;
  }

  lemma {:induction false} MarksKeepTargets(db: Db, id: int, eventId: string, attempt: int, at: int, error: string, now: int, session: S.Session)
    ensures TargetsMove(db.events, MarkPushSent(db, id, eventId, at, now).events, {}, session)
    ensures TargetsMove(db.events, MarkPushRetry(db, id, attempt, at, error, now).events, {}, session)
  {
    hide Truncate, TargetsMove, SetEventState;
    StatesKeepTargets(PushSentRow(db, id, at, now), eventId, Pushed, now, session);
    TargetsStay(db.events, session);
  }

  lemma {:induction false} StatesKeepTargets(db: Db, eventId: string, state: EventState, now: int, session: S.Session)
    ensures TargetsMove(db.events, SetEventState(db, eventId, state, now).events, {}, session)
  {
  }

  /** After a delivery: the event learns the session when that has a channel and a target, and the
      row becomes SENT, or RETRY with a later due time. */
  method MarkDelivered(es: EventStore, cfg: Config, row: PushRow, ok: bool, error: string, session: S.Session, ghost s: Sys, ghost ls: seq<Label>, ghost left: seq<PushPick>, ghost sends: seq<Delivery>)
    returns (ghost ls': seq<Label>)
    requires PushAtPc(cfg, es, s, ls, Delivered(PushPick(row.id, row.eventId, row.attempt), left, ok), sends)
    requires cfg.PushMaxDelay() <= Backoff.LARGEST_CAP
    modifies es`db
    ensures PushAtPc(cfg, es, s, ls', Dispatch(left), sends)
    ensures Wf(s.db) ==> TargetsMove(old(es.db).events, es.db.events, Hit(row, ok, session), session)
    ensures Wf(s.db) && InFlightRow(old(es.db).push, row) ==> Moves(old(es.db).push, es.db.push, PushId, row.id, PushMarked(cfg, row, ok))
  {
    hide AllOutside, Run, Step, MarkPushSent, MarkPushRetry, SetTargetSession, Backoff.DelayMs, Wf, Moves, PushMarked, TargetsMove, InFlightRow;
    ghost var pick, hit, events := PushPick(row.id, row.eventId, row.attempt), Hit(row, ok, session), es.db.events;
    ls' := ls;
    if ok {
      var target := S.ParseSessionKey(session.key);
      TargetsStay(es.db.events, session);
      if Wf(s.db) {
        RunKeepsWf(cfg, s, ls);
        TargetReached(es.db, row, session, es.clock);
      }
      if target.channel != "" && target.target != "" {
        PushAdvances(cfg, es, s, ls', Delivered(pick, left, true), sends, PushTarget(session.sessionId, session.key));
        TargetStep(cfg, Run(cfg, s, ls'), pick, left, session);
        var _ := es.UpdateEventTargetSession(row.eventId, session.sessionId, session.key);
        ls' := ls' + [Push(PushTarget(session.sessionId, session.key))];
      }
      MarkAdvances(cfg, es, s, ls', Delivered(pick, left, true), sends, PushMark(error));
      SentMark(cfg, Run(cfg, s, ls'), pick, left, error);
      MarkedDelivery(cfg, s, ls', es.db, events, row, hit, session, error, es.clock);
      es.MarkPushSent(row.id, row.eventId, es.clock + 15_000);
      ls' := ls' + [Push(PushMark(error))] + [Push(PushEvent)];
    } else {
      TargetsStay(es.db.events, session);
      PushAdvances(cfg, es, s, ls', Delivered(pick, left, false), sends, PushMark(error));
      RetryMark(cfg, Run(cfg, s, ls'), pick, left, error);
      var delay := Backoff.CalculateBackoffMs(row.attempt + 1, cfg.PushMaxDelay());
      MarkedDelivery(cfg, s, ls', es.db, events, row, hit, session, error, es.clock);
      es.MarkPushRetry(row.id, row.attempt + 1, es.clock + delay, error);
      ls' := ls' + [Push(PushMark(error))];
    }
  }

  /** What either mark of a delivered row will have done, from a state the run has reached. */
  lemma {:induction false} MarkedDelivery(cfg: Config, s: Sys, ls: seq<Label>, db: Db, events: seq<Event>, row: PushRow, hit: set<string>, session: S.Session, error: string, now: int)
    requires Run(cfg, s, ls).db == db && (Wf(s.db) ==> TargetsMove(events, db.events, hit, session))
    ensures
      var delay := Backoff.DelayMs(row.attempt + 1, cfg.PushMaxDelay());
      var sent, retry := MarkPushSent(db, row.id, row.eventId, now + 15_000, now), MarkPushRetry(db, row.id, row.attempt + 1, now + delay, error, now);
      && (Wf(s.db) ==> TargetsMove(events, sent.events, hit, session) && TargetsMove(events, retry.events, hit, session))
      && (Wf(s.db) && InFlightRow(db.push, row) ==>
            && Moves(db.push, sent.push, PushId, row.id, PushMarked(cfg, row, true))
            && Moves(db.push, retry.push, PushId, row.id, PushMarked(cfg, row, false)))
  {
    hide Run, Wf, Moves, PushMarked, Backoff.DelayMs, MarkPushSent, MarkPushRetry, TargetsMove, InFlightRow;
    var delay := Backoff.DelayMs(row.attempt + 1, cfg.PushMaxDelay());
    var sent, retry := MarkPushSent(db, row.id, row.eventId, now + 15_000, now), MarkPushRetry(db, row.id, row.attempt + 1, now + delay, error, now);
    MarksKeepTargets(db, row.id, row.eventId, row.attempt + 1, now + 15_000, error, now, session);
    MarksKeepTargets(db, row.id, row.eventId, row.attempt + 1, now + delay, error, now, session);
    assert hit + {} == hit;
    if Wf(s.db) {
      TargetsMoveOn(events, db.events, sent.events, hit, {}, session);
      TargetsMoveOn(events, db.events, retry.events, hit, {}, session);
      RunKeepsWf(cfg, s, ls);
      if InFlightRow(db.push, row) {
        DeliveryMoves(cfg, db, row, error, now);
      }
    }
  }

  /** Deliver one row: in flight first, then marked by the outcome. */
  method DispatchRow(es: EventStore, cfg: Config, row: PushRow, turn: Turn, session: S.Session, ghost s: Sys, ghost ls: seq<Label>, ghost left: seq<PushPick>, ghost sends: seq<Delivery>)
    returns (ghost ls': seq<Label>)
    requires PushAtPc(cfg, es, s, ls, Dispatch([PushPick(row.id, row.eventId, row.attempt)] + left), sends)
    requires AllOutside(turn.during) && cfg.PushMaxDelay() <= Backoff.LARGEST_CAP
    modifies es
    ensures PushAtPc(cfg, es, s, ls', Dispatch(left), sends + [Delivery(row.id, turn.ok)])
    ensures Wf(s.db) ==> TargetsMove(old(es.db).events, es.db.events, Hit(row, turn.ok, session), session)
    ensures Wf(s.db) && row in old(es.db).push ==> Moves(old(es.db).push, es.db.push, PushId, row.id, PushMarked(cfg, row, turn.ok))
  {
    hide AllOutside, Run, Step, MarkPushSent, Wf, Moves, PushMarked, TargetsMove, InFlightRow, StillThat, CrashFree;
    ghost var pick, before := PushPick(row.id, row.eventId, row.attempt), es.db;
    assert ([pick] + left)[1..] == left;
    MarkAdvances(cfg, es, s, ls, Dispatch([pick] + left), sends, PushInflight);
    FlightMark(cfg, Run(cfg, s, ls), pick, left);
    FlightMarked(cfg, s, ls, es.db, row, es.clock + cfg.PushMaxDelay(), es.clock, session);
    es.MarkPushSent(row.id, row.eventId, es.clock + cfg.PushMaxDelay());
    ghost var flying := es.db;
    ls' := ls + [Push(PushInflight)] + [Push(PushEvent)];
    ls' := PushPause(es, cfg, turn.during, s, ls', InFlight(pick, left), sends, session);
    PushAdvances(cfg, es, s, ls', InFlight(pick, left), sends, PushSend(turn.ok));
    SendStep(cfg, Run(cfg, s, ls'), pick, left, turn.ok);
    ls' := ls' + [Push(PushSend(turn.ok))];
    ghost var landed := es.db;
    FlightSurvives(before.events, flying, landed, row, session);
    ls' := MarkDelivered(es, cfg, row, turn.ok, turn.error, session, s, ls', left, sends + [Delivery(row.id, turn.ok)]);
    if Wf(s.db) {
      assert {} + {} + Hit(row, turn.ok, session) == Hit(row, turn.ok, session);
      TargetsMoveOn(before.events, landed.events, es.db.events, {} + {}, Hit(row, turn.ok, session), session);
    }
    if Wf(s.db) && row in before.push {
      MovesTwice(before.push, flying.push, landed.push, es.db.push, PushId, row.id, StillThat(row), PushMarked(cfg, row, turn.ok));
    }
  }

  /** What others do during a delivery. */
  lemma {:induction false} FlightSurvives(before: seq<Event>, flying: Db, landed: Db, row: PushRow, session: S.Session)
    requires flying.push <= landed.push && TargetsMove(before, flying.events, {}, session) && TargetsMove(flying.events, landed.events, {}, session)
    ensures TargetsMove(before, landed.events, {} + {}, session)
    ensures InFlightRow(flying.push, row) ==> InFlightRow(landed.push, row)
  {
    TargetsMoveOn(before, flying.events, landed.events, {}, {}, session);
    if InFlightRow(flying.push, row) {
      var r :| r in flying.push && SamePush(row, r) && r.attempt == row.attempt;
      assert r in landed.push;
    }
  }

  /** The session to push to: the one the three scans choose, if OpenClaw can be asked and has a usable
      one. */
  method ChooseSession(sessions: Option<seq<S.Session>>, lower: string -> string) returns (chosen: Option<S.Session>)
    ensures chosen == None <==> sessions == None || forall i :: 0 <= i < |sessions.value| ==> !S.Usable(sessions.value[i])
    ensures chosen.Some? ==> ChosenFrom(sessions.value, chosen.value, lower)
  {
    if sessions == None || |sessions.value| == 0 { return None; }
    var index := S.ResolvePushSession(sessions.value, lower);
    S.ChoiceIsDetermined(sessions.value, index, index, lower);
    if index == None { return None; }
    return Some(sessions.value[index.value]);
  }

  ghost predicate ChosenFrom(sessions: seq<S.Session>, session: S.Session, lower: string -> string) {
    exists i: nat :: i < |sessions| && S.Chosen(sessions, Some(i), lower) && sessions[i] == session && S.Usable(session)
  }

  /** The first n of the rows are delivered, marked, and their events targeted; nothing else changed. */
  ghost predicate PushesDone(cfg: Config, before: Db, after: Db, rows: seq<PushRow>, world: nat -> Turn, session: S.Session, n: nat) {
    && n <= |rows|
    && Through(before.push, after.push, rows, n, PushId, PushDoneAs(cfg, rows, world))
    && TargetsMove(before.events, after.events, HitBy(rows, world, n, session), session)
  }

  /** Rows listed for a push: in the table with their events, in id order. */
  ghost predicate Listing(db: Db, rows: seq<PushRow>) {
    Ascending(rows, PushId) && forall r :: r in rows ==> r in db.push
  }

  lemma {:induction false} OneMorePushed(cfg: Config, before: Db, mid: Db, after: Db, rows: seq<PushRow>, world: nat -> Turn, session: S.Session, n: nat)
    requires Wf(before) && Listing(before, rows) && n < |rows| && PushesDone(cfg, before, mid, rows, world, session, n)
    requires TargetsMove(mid.events, after.events, Hit(rows[n], world(n).ok, session), session)
    requires Moves(mid.push, after.push, PushId, rows[n].id, PushMarked(cfg, rows[n], world(n).ok))
    ensures PushesDone(cfg, before, after, rows, world, session, n + 1)
  {
    hide Through, Moves, PushMarked, TargetsMove, Hit;
    assert rows[n] in rows;
    ThroughOneMore(before.push, mid.push, after.push, rows, n, PushId, PushDoneAs(cfg, rows, world), PushMarked(cfg, rows[n], world(n).ok));
    TargetsMoveOn(before.events, mid.events, after.events, HitBy(rows, world, n, session), Hit(rows[n], world(n).ok, session), session);
  }

  lemma {:induction false} PausePushed(cfg: Config, before: Db, mid: Db, after: Db, rows: seq<PushRow>, world: nat -> Turn, session: S.Session, n: nat)
    requires PushesDone(cfg, before, mid, rows, world, session, n) && mid.push <= after.push && TargetsMove(mid.events, after.events, {}, session)
    ensures PushesDone(cfg, before, after, rows, world, session, n)
  {
    hide Through, TargetsMove, HitBy;
    ThroughMore(before.push, mid.push, after.push, rows, n, PushId, PushDoneAs(cfg, rows, world));
    assert HitBy(rows, world, n, session) + {} == HitBy(rows, world, n, session);
    TargetsMoveOn(before.events, mid.events, after.events, HitBy(rows, world, n, session), {}, session);
  }

  /** Phase 2's loop over the listed rows; a cancelled flush stops between two of them. */
  method DispatchRows(es: EventStore, cfg: Config, rows: seq<PushRow>, session: S.Session, world: nat -> Turn, ghost s: Sys, ghost before: seq<Label>)
    returns (sent: nat, ghost ls: seq<Label>)
    requires PushAtPc(cfg, es, s, before, Dispatch(Picks(rows)), []) && Fair(world) && cfg.PushMaxDelay() <= Backoff.LARGEST_CAP
    requires Wf(s.db) ==> Wf(es.db) && Listing(es.db, rows)
    modifies es
    ensures StoppedAt(world, sent, |rows|) && PushAtPc(cfg, es, s, ls, Dispatch(Picks(rows)[sent..]), PushSends(rows, world, sent))
    ensures Wf(s.db) ==> PushesDone(cfg, old(es.db), es.db, rows, world, session, sent)
  {
    hide AllOutside, PushAtPc, Wf, PushesDone, Listing, TargetsMove, PushMarked, Moves, Run, Hit;
    ghost var picks := Picks(rows);
    assert picks[0..] == picks && PushSends(rows, world, 0) == [];
    sent, ls := 0, before;
    if Wf(s.db) {
      NothingPushed(cfg, es.db, rows, world, session);
    }
    while sent < |rows|
      invariant 0 <= sent <= |rows| && PushAtPc(cfg, es, s, ls, Dispatch(picks[sent..]), PushSends(rows, world, sent))
      invariant forall j: nat :: j < sent ==> !world(j).cancelled
      invariant Wf(s.db) ==> PushesDone(cfg, old(es.db), es.db, rows, world, session, sent)
    {
      ghost var mid := es.db;
      var turn := world(sent);
      ls := PushPause(es, cfg, turn.before, s, ls, Dispatch(picks[sent..]), PushSends(rows, world, sent), session);
      ghost var paused := es.db;
      if Wf(s.db) {
        PausePushed(cfg, old(es.db), mid, paused, rows, world, session, sent);
      }
      if turn.cancelled { break; }
      assert picks[sent..] == [picks[sent]] + picks[sent + 1..];
      ls := DispatchRow(es, cfg, rows[sent], turn, session, s, ls, picks[sent + 1..], PushSends(rows, world, sent));
      SendsOneMore(rows, world, sent);
      if Wf(s.db) {
        NextPush(cfg, old(es.db), paused, rows, world, session, sent);
        OneMorePushed(cfg, old(es.db), paused, es.db, rows, world, session, sent);
      }
      sent := sent + 1;
    }
  }

  lemma {:induction false} SendsOneMore(rows: seq<PushRow>, world: nat -> Turn, n: nat)
    requires n < |rows|
    ensures PushSends(rows, world, n + 1) == PushSends(rows, world, n) + [Delivery(rows[n].id, world(n).ok)]
  {
  }

  lemma {:induction false} NothingPushed(cfg: Config, db: Db, rows: seq<PushRow>, world: nat -> Turn, session: S.Session)
    ensures PushesDone(cfg, db, db, rows, world, session, 0)
  {
    ThroughNone(db.push, rows, PushId, PushDoneAs(cfg, rows, world));
    TargetsStay(db.events, session);
  }

  lemma {:induction false} NextPush(cfg: Config, before: Db, mid: Db, rows: seq<PushRow>, world: nat -> Turn, session: S.Session, n: nat)
    requires Wf(before) && Listing(before, rows) && n < |rows| && PushesDone(cfg, before, mid, rows, world, session, n)
    ensures rows[n] in mid.push
  {
    hide Through, TargetsMove, PushDoneAs;
    assert rows[n] in rows;
    NextAsListed(before.push, mid.push, rows, n, PushId, PushDoneAs(cfg, rows, world));
  }

  /** What phase 2 lists. */
  function FirstDuePush(cfg: Config, s: Sys, since: int): seq<PushRow> {
    Select(s.db.push, DuePush(s.db.events, since), cfg.PushBatch())
  }

  lemma {:induction false} DueIsListing(cfg: Config, s: Sys, since: int)
    requires Wf(s.db)
    ensures Listing(s.db, FirstDuePush(cfg, s, since))
  {
    var rows := FirstDuePush(cfg, s, since);
    SelectOrdered(s.db.push, DuePush(s.db.events, since), cfg.PushBatch(), PushId);
  }

  lemma {:induction false} PhaseOneDone(cfg: Config, es: EventStore, s: Sys, ls: seq<Label>, since: int)
    requires PushAtPc(cfg, es, s, ls, Cleanup([], since), [])
    ensures Run(cfg, s, ls).db == es.db && Run(cfg, s, ls).push == Cleanup([], since) && Run(cfg, s, ls).pushLog.sends == s.pushLog.sends && CrashFree(ls)
    ensures
      var rows := FirstDuePush(cfg, Run(cfg, s, ls), since);
      PushAtPc(cfg, es, s, ls + [Push(PushList(true))], if rows == [] then PushIdle else Dispatch(Picks(rows)), [])
  {
    hide Run;
    PushAdvances(cfg, es, s, ls, Cleanup([], since), [], PushList(true));
  }

  lemma {:induction false} PhaseTwoStops(cfg: Config, es: EventStore, s: Sys, ls: seq<Label>, left: seq<PushPick>, sends: seq<Delivery>)
    requires PushAtPc(cfg, es, s, ls, Dispatch(left), sends)
    ensures PushAtPc(cfg, es, s, ls + [Push(PushStop)], PushIdle, sends)
  {
    hide Run;
    PushAdvances(cfg, es, s, ls, Dispatch(left), sends, PushStop);
  }

  /** Phase 1 cleans up, phase 2 dispatches; phase1 leads from the one to the other.  sessions is what
      OpenClaw answers, None for an error.  sent counts deliveries attempted, failed ones included;
      retried stays 0. */
  method RunPushFlush(es: EventStore, cfg: Config, pauses: nat -> seq<Label>, sessions: Option<seq<S.Session>>, lower: string -> string, world: nat -> Turn, ghost s: Sys)
    returns (stats: PushStats, ghost phase1: seq<Label>, ghost ls: seq<Label>, ghost session: Option<S.Session>)
    requires At(es, s) && s.push.PushIdle? && Fair(world) && forall i: nat :: AllOutside(pauses(i))
    requires cfg.PushMaxDelay() <= Backoff.LARGEST_CAP
    modifies es
    ensures CleanedFirst(cfg, s, phase1, old(es.clock))
    ensures PushFlushed(cfg, s, Run(cfg, s, phase1), es.db, old(es.clock), sessions, lower, world, stats, session)
    ensures PushAtPc(cfg, es, s, ls, PushIdle, PushSends(FirstDuePush(cfg, Run(cfg, s, phase1), old(es.clock)), world, stats.sent))
  {
    hide AllOutside, Run, Through, PushesDone, Wf, Listing, PushAtPc, ChosenFrom, FirstSent;
    var since;
    since, phase1 := CleanUp(es, cfg, pauses, s);
    ls := phase1;
    ghost var cleaned := Run(cfg, s, phase1);
    if Wf(s.db) {
      RunKeepsWf(cfg, s, phase1);
      DueIsListing(cfg, cleaned, since);
    }
    PhaseOneDone(cfg, es, s, ls, since);
    var rows := es.ListPendingPushOutbox(since, cfg.pushBatch);
    assert PushSends(rows, world, 0) == [];
    ls := ls + [Push(PushList(true))];
    session := None;
    if |rows| == 0 { return PushStats(0, 0, 0, false), phase1, ls, None; }
    var chosen := ChooseSession(sessions, lower);
    session := chosen;
    if chosen == None {
      PhaseTwoStops(cfg, es, s, ls, Picks(rows), []);
      ls := ls + [Push(PushStop)];
      return PushStats(0, 0, |rows|, true), phase1, ls, None;
    }
    var sent;
    sent, ls := DispatchRows(es, cfg, rows, chosen.value, world, s, ls);
    PhaseTwoStops(cfg, es, s, ls, Picks(rows)[sent..], PushSends(rows, world, sent));
    ls := ls + [Push(PushStop)];
    return PushStats(sent, 0, 0, false), phase1, ls, session;
  }

  /** Phase 1 has acknowledged the first SENT rows, sent nothing, and left every other row alone. */
  ghost predicate CleanedFirst(cfg: Config, s: Sys, phase1: seq<Label>, since: int) {
    var cleaned, rows := Run(cfg, s, phase1), FirstSent(cfg, s);
    && cleaned.push == Cleanup([], since) && CrashFree(phase1) && cleaned.pushLog.sends == s.pushLog.sends
    && (Wf(s.db) ==> Through(s.db.push, cleaned.db.push, rows, |rows|, PushId, CleanedAs(rows)))
  }

  /** Phase 2 delivers the first due rows, each once and in order, up to the first turn that is
      cancelled, to the session chosen; without one it skips them all and says so. */
  ghost predicate PushFlushed(cfg: Config, s: Sys, cleaned: Sys, after: Db, since: int, sessions: Option<seq<S.Session>>, lower: string -> string, world: nat -> Turn, stats: PushStats, session: Option<S.Session>) {
    var rows := FirstDuePush(cfg, cleaned, since);
    var usable := sessions.Some? && exists i :: 0 <= i < |sessions.value| && S.Usable(sessions.value[i]);
    && stats.sent <= |rows| && stats.retried == 0
    && (stats.sessionUnavailable <==> rows != [] && !usable)
    && stats.skipped == (if stats.sessionUnavailable then |rows| else 0)
    && (session.Some? <==> rows != [] && usable)
    && (session == None ==> stats.sent == 0 && after == cleaned.db)
    && (session.Some? ==>
          && ChosenFrom(sessions.value, session.value, lower) && StoppedAt(world, stats.sent, |rows|)
          && (Wf(s.db) ==> PushesDone(cfg, cleaned.db, after, rows, world, session.value, stats.sent)))
  }

  ghost predicate SentBecomeAcked(push: seq<PushRow>, push': seq<PushRow>) {
    |push| <= |push'| && forall k :: 0 <= k < |push| && push[k].status == Sent ==> SamePush(push[k], push'[k]) && push'[k].status == Acked
  }

  /** Within the bound, phase 1 lists every SENT row. */
  lemma {:induction false} EverySentIsFirst(cfg: Config, s: Sys, r: PushRow)
    requires Q.PushSteady(cfg, s) && s.push.PushIdle? && r in s.db.push && r.status == Sent
    ensures r in FirstSent(cfg, s)
  {
    hide Q.Accounted, Select;
    var rows := FirstSent(cfg, s);
    Q.CleanupListsAllSent(s.db.events, s.db.push, s.db.pushSeq, cfg.PushBatch());
    assert r.id in Q.SentIds(s.db.push);
    var p :| p in Picks(rows) && p.id == r.id;
    var i: nat :| i < |rows| && Picks(rows)[i] == p;
    assert rows[i] in rows;
    OnePushRow(s.db, r);
  }

  lemma {:induction false} NoneListedIsAcked(cfg: Config, s: Sys, since: int)
    ensures forall r :: r in FirstDuePush(cfg, s, since) ==> r.status != Acked
  {
    forall r | r in FirstDuePush(cfg, s, since) ensures r.status != Acked {
      assert DuePush(s.db.events, since)(r);
    }
  }

  /** What phase 1 acknowledged, phase 2 does not touch. */
  lemma {:induction false} AckedIsLeft(cfg: Config, s: Sys, phase1: seq<Label>, after: Db, since: int, sessions: Option<seq<S.Session>>, lower: string -> string, world: nat -> Turn, stats: PushStats, session: Option<S.Session>, k: nat)
    requires Wf(s.db) && PushFlushed(cfg, s, Run(cfg, s, phase1), after, since, sessions, lower, world, stats, session)
    requires k < |Run(cfg, s, phase1).db.push| && Run(cfg, s, phase1).db.push[k].status == Acked
    ensures k < |after.push| && after.push[k] == Run(cfg, s, phase1).db.push[k]
  {
    hide Run, Wf, StoppedAt, ChosenFrom, TargetsMove;
    var cleaned := Run(cfg, s, phase1);
    var rows := FirstDuePush(cfg, cleaned, since);
    NoneListedIsAcked(cfg, cleaned, since);
    if session.Some? {
      assert RowThrough(cleaned.db.push[k], after.push[k], rows, stats.sent, PushDoneAs(cfg, rows, world));
    }
  }

  lemma {:induction false} SentAreAcked(cfg: Config, s: Sys, phase1: seq<Label>, after: Db, since: int, sessions: Option<seq<S.Session>>, lower: string -> string, world: nat -> Turn, stats: PushStats, session: Option<S.Session>)
    requires Q.PushSteady(cfg, s) && s.push.PushIdle? && CleanedFirst(cfg, s, phase1, since)
    requires PushFlushed(cfg, s, Run(cfg, s, phase1), after, since, sessions, lower, world, stats, session)
    requires |s.db.push| <= |after.push|
    ensures SentBecomeAcked(s.db.push, after.push)
  {
    hide Run, Wf, PushFlushed, FirstSent, Q.Steady;
    var cleaned, rows := Run(cfg, s, phase1), FirstSent(cfg, s);
    forall k | 0 <= k < |s.db.push| && s.db.push[k].status == Sent
      ensures SamePush(s.db.push[k], after.push[k]) && after.push[k].status == Acked
    {
      EverySentIsFirst(cfg, s, s.db.push[k]);
      assert rows[..|rows|] == rows;
      assert RowThrough(s.db.push[k], cleaned.db.push[k], rows, |rows|, CleanedAs(rows));
      var j: nat :| j < |rows| && rows[j] == s.db.push[k] && CleanedAs(rows)(j, cleaned.db.push[k]);
      assert CleanedUp(rows[j])(cleaned.db.push[k]);
      AckedIsLeft(cfg, s, phase1, after, since, sessions, lower, world, stats, session, k);
    }
  }

  lemma {:induction false} FlushEndsSteady(cfg: Config, es: EventStore, s: Sys, ls: seq<Label>, sends: seq<Delivery>)
    requires Q.PushSteady(cfg, s) && PushAtPc(cfg, es, s, ls, PushIdle, sends)
    ensures |Q.SentIds(es.db.push)| <= cfg.PushBatch() && |s.db.push| <= |es.db.push|
  {
    hide Run, Wf, Q.SentIds, Q.Accounted;
    Q.RunPushSteady(cfg, s, ls);
    RunKeepsWf(cfg, s, ls);
  }

  /** The whole flush.  From a steady state, the rows that were SENT when it began are ACKED when it
      ends, and at most a batch of rows is SENT. */
  method FlushPushOutbox(es: EventStore, cfg: Config, pauses: nat -> seq<Label>, sessions: Option<seq<S.Session>>, lower: string -> string, world: nat -> Turn, ghost s: Sys)
    returns (stats: PushStats, ghost phase1: seq<Label>, ghost ls: seq<Label>, ghost session: Option<S.Session>)
    requires At(es, s) && s.push.PushIdle? && Fair(world) && forall i: nat :: AllOutside(pauses(i))
    requires cfg.PushMaxDelay() <= Backoff.LARGEST_CAP
    modifies es
    ensures CleanedFirst(cfg, s, phase1, old(es.clock))
    ensures PushFlushed(cfg, s, Run(cfg, s, phase1), es.db, old(es.clock), sessions, lower, world, stats, session)
    ensures PushAtPc(cfg, es, s, ls, PushIdle, PushSends(FirstDuePush(cfg, Run(cfg, s, phase1), old(es.clock)), world, stats.sent))
    ensures stats.retried == 0 && stats.sent + stats.skipped <= cfg.PushBatch()
    ensures stats.sessionUnavailable ==> stats.sent == 0 && stats.skipped > 0
    ensures Q.PushSteady(cfg, s) ==> |Q.SentIds(es.db.push)| <= cfg.PushBatch() && SentBecomeAcked(s.db.push, es.db.push)
  {
    hide CleanedFirst, PushesDone, PushAtPc, Run, Step, AllOutside, Wf, Q.Steady, Q.SentIds, SentBecomeAcked, ChosenFrom, StoppedAt;
    stats, phase1, ls, session := RunPushFlush(es, cfg, pauses, sessions, lower, world, s);
    if Q.PushSteady(cfg, s) {
      FlushEndsSteady(cfg, es, s, ls, PushSends(FirstDuePush(cfg, Run(cfg, s, phase1), old(es.clock)), world, stats.sent));
      SentAreAcked(cfg, s, phase1, es.db, old(es.clock), sessions, lower, world, stats, session);
    }
  }
}
