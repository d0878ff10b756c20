/** Reading the inbox: unread counts, cursor pulls and acknowledgements. */
module Inbox {
  import opened Wrappers
  import opened Tables
  import opened System
  import opened Schema

  // ------------------------------------------------------------------- queries

  /** The anti-join with consumer_ack. */
  function Unread(acks: map<(string, string), int>, consumer: string): Event -> bool {
    (e: Event) => (consumer, e.eventId) !in acks
  }

  /** The WHERE clause of a pull; the empty peer means no filter. */
  function Pullable(acks: map<(string, string), int>, consumer: string, cursor: int, peerId: string): Event -> bool {
    (e: Event) => e.seqNo > cursor && Unread(acks, consumer)(e) && (peerId == "" || e.peerId == peerId)
  }

  function PullLimit(limit: int): (n: nat)
    ensures n > 0
  {
    if limit <= 0 then 20 else limit
  }

  function Pull(db: Db, consumer: string, cursor: int, limit: int, peerId: string): seq<Event> {
    Select(db.events, Pullable(db.acks, consumer, cursor, peerId), PullLimit(limit))
  }

  /** The cursor a pull hands back. */
  function NextCursor(cursor: int, batch: seq<Event>): int {
    if batch == [] then cursor else batch[|batch| - 1].seqNo
  }

  function EventOf(db: Db, eventId: string): (e: Option<Event>)
    ensures e == None <==> forall x :: x in db.events ==> x.eventId != eventId
    ensures e.Some? ==> e.value in db.events && e.value.eventId == eventId
  {
    var n := EventAt(db.events, eventId);
    if n < |db.events| then Some(db.events[n]) else None
  }

  function PendingPush(db: Db): nat {
    Count(db.push, (r: PushRow) => Open(r.status) || r.status == Sent)
  }

  /** MIN(created_at) over the hits. */
  function Oldest(events: seq<Event>, keep: Event -> bool): (out: Option<int>)
    ensures out == None <==> forall e :: e in events ==> !keep(e)
    ensures out.Some? ==> exists e :: e in events && keep(e) && e.createdAt == out.value
    ensures out.Some? ==> forall e :: e in events && keep(e) ==> out.value <= e.createdAt
  {
    if events == [] then None
    else
      assert events == [events[0]] + events[1..];
      var rest := Oldest(events[1..], keep);
      if !keep(events[0]) || (rest.Some? && rest.value < events[0].createdAt) then rest else Some(events[0].createdAt)
  }

  datatype PeekResult = PeekResult(unread: nat, pendingPush: nat)

  datatype CheckResult = CheckResult(unread: nat, oldestUnreadAt: int, pendingPush: nat)

  function PeekUnread(db: Db, consumer: string): PeekResult {
    PeekResult(Count(db.events, Unread(db.acks, consumer)), PendingPush(db))
  }

  function CheckStatus(db: Db, consumer: string): CheckResult {
    var oldest := Oldest(db.events, Unread(db.acks, consumer));
    CheckResult(Count(db.events, Unread(db.acks, consumer)), if oldest.Some? then oldest.value else 0, PendingPush(db))
  }

  // -------------------------------------------------------- unread conservation

  /** The events a consumer has acked; (consumer, event) is the primary key. */
  function AckedBy(acks: map<(string, string), int>, consumer: string): set<string> {
    set k | k in acks && k.0 == consumer :: k.1
  }

  function Ids(events: seq<Event>): set<string> {
    set i | 0 <= i < |events| :: events[i].eventId
  }

  lemma {:induction false} IdsStep(events: seq<Event>)
    requires events != [] && forall i, j :: 0 <= i < j < |events| ==> events[i].eventId != events[j].eventId
    ensures Ids(events) == {events[0].eventId} + Ids(events[1..]) && events[0].eventId !in Ids(events[1..])
  {
    var rest := events[1..];
    assert forall i :: 0 < i < |events| ==> events[i] == rest[i - 1];
    assert forall i :: 0 <= i < |rest| ==> rest[i] == events[i + 1];
  }

  lemma {:induction false} IntersectStep(id: string, rest: set<string>, s: set<string>)
    requires id !in rest
    ensures |({id} + rest) * s| == |rest * s| + if id in s then 1 else 0
  {
    assert ({id} + rest) * s == (if id in s then {id} else {}) + rest * s;
  }

  lemma {:induction false} CountOfIds(events: seq<Event>, s: set<string>)
    requires forall i, j :: 0 <= i < j < |events| ==> events[i].eventId != events[j].eventId
    ensures Count(events, (e: Event) => e.eventId !in s) + |Ids(events) * s| == |events|
  {
    hide Ids;
    if events == [] {
      assert Ids(events) * s == {} by { NoIds(); }
    } else {
      CountOfIds(events[1..], s);
      IdsStep(events);
      IntersectStep(events[0].eventId, Ids(events[1..]), s);
    }
  }

  lemma {:induction false} NoIds()
    ensures Ids([]) == {}
  {
  }

  lemma {:induction false} CountSame<R>(rows: seq<R>, p: R -> bool, q: R -> bool)
    requires forall i :: 0 <= i < |rows| ==> p(rows[i]) == q(rows[i])
    ensures Count(rows, p) == Count(rows, q)
  {
    CountGrows(rows, rows, p, q);
    CountGrows(rows, rows, q, p);
  }

  lemma {:induction false} UnreadPlusAcked(db: Db, consumer: string)
    requires Wf(db)
    ensures Count(db.events, Unread(db.acks, consumer)) + |AckedBy(db.acks, consumer)| == |db.events|
  {
    var unread, acked := Unread(db.acks, consumer), AckedBy(db.acks, consumer);
    AckedAreEvents(db, consumer);
    CountOfIds(db.events, acked);
    assert forall i :: 0 <= i < |db.events| ==> unread(db.events[i]) == (db.events[i].eventId !in acked);
    CountSame(db.events, unread, (e: Event) => e.eventId !in acked);
  }

  lemma {:induction false} UnreadIsUnlimitedPull(db: Db, consumer: string)
    requires Wf(db)
    ensures |Select(db.events, Pullable(db.acks, consumer, 0, ""), |db.events|)| == Count(db.events, Unread(db.acks, consumer))
  {
    var unread, pullable := Unread(db.acks, consumer), Pullable(db.acks, consumer, 0, "");
    CountSame(db.events, unread, pullable);
    SelectCount(db.events, pullable, |db.events|);
  }

  /** On every constrained database and for each consumer: unread events and acks make up all events;
      both unread counts are the length of an unlimited pull from the start; and the oldest-unread
      time is the earliest creation time in that pull (0 if it is empty). */
  lemma {:induction false} UnreadConservation(db: Db, consumer: string)
    requires Wf(db)
    ensures
      var all := Select(db.events, Pullable(db.acks, consumer, 0, ""), |db.events|);
      && PeekUnread(db, consumer).unread + |AckedBy(db.acks, consumer)| == |db.events|
      && PeekUnread(db, consumer).unread == CheckStatus(db, consumer).unread == |all|
      && PeekUnread(db, consumer).pendingPush == CheckStatus(db, consumer).pendingPush
      && (all == [] ==> CheckStatus(db, consumer).oldestUnreadAt == 0)
      && (all != [] ==> exists e :: e in all && e.createdAt == CheckStatus(db, consumer).oldestUnreadAt)
      && (forall e :: e in all ==> CheckStatus(db, consumer).oldestUnreadAt <= e.createdAt)
  {
    hide Wf, AckedBy, Pullable;
    UnreadPlusAcked(db, consumer);
    UnreadIsUnlimitedPull(db, consumer);
    UnlimitedPull(db, consumer);
    var all := Select(db.events, Pullable(db.acks, consumer, 0, ""), |db.events|);
    assert all != [] ==> all[0] in all;
  }

  lemma {:induction false} AckedAreEvents(db: Db, consumer: string)
    requires AckReferences(db.events, db.acks)
    ensures Ids(db.events) * AckedBy(db.acks, consumer) == AckedBy(db.acks, consumer)
  {
    forall x | x in AckedBy(db.acks, consumer) ensures x in Ids(db.events) {
      assert (consumer, x) in db.acks;
      assert Known(db.events, x);
      assert db.events[EventAt(db.events, x)].eventId == x;
    }
  }

  /** An unlimited pull from the start is exactly the unread events. */
  lemma {:induction false} UnlimitedPull(db: Db, consumer: string)
    requires Wf(db)
    ensures
      var all := Select(db.events, Pullable(db.acks, consumer, 0, ""), |db.events|);
      forall e :: e in all <==> e in db.events && (consumer, e.eventId) !in db.acks
  {
    var pullable := Pullable(db.acks, consumer, 0, "");
    forall e | e in db.events && Unread(db.acks, consumer)(e) ensures e in Select(db.events, pullable, |db.events|) {
      var k: nat :| k < |db.events| && db.events[k] == e;
      assert Count(db.events[..k], pullable) <= k;
      SelectReaches(db.events, k, pullable, |db.events|);
    }
  }

  // ------------------------------------------------------------- cursor pulls

  /** One pull: the labels that came before it, and its limit. */
  datatype Visit = Visit(before: seq<Label>, limit: int)

  /** What the pull saw and returned. */
  datatype Pulled = Pulled(db: Db, cursor: int, batch: seq<Event>)

  /** A consumer pulling again and again, each time from the cursor it was handed. */
  function Pulls(cfg: Config, s: Sys, consumer: string, peerId: string, cursor: int, visits: seq<Visit>): seq<Pulled>
    decreases |visits|
  {
    if visits == [] then []
    else
      var s' := Run(cfg, s, visits[0].before);
      var batch := Pull(s'.db, consumer, cursor, visits[0].limit, peerId);
      [Pulled(s'.db, cursor, batch)] + Pulls(cfg, s', consumer, peerId, NextCursor(cursor, batch), visits[1..])
  }

  function AfterPulls(cfg: Config, s: Sys, visits: seq<Visit>): Sys
    decreases |visits|
  {
    if visits == [] then s else AfterPulls(cfg, Run(cfg, s, visits[0].before), visits[1..])
  }

  function FinalCursor(cursor: int, pulls: seq<Pulled>): int {
    if pulls == [] then cursor
    else NextCursor(pulls[|pulls| - 1].cursor, pulls[|pulls| - 1].batch)
  }

  function Delivered(pulls: seq<Pulled>): seq<int> {
    if pulls == [] then [] else SeqNos(pulls[0].batch) + Delivered(pulls[1..])
  }

  function SeqNos(events: seq<Event>): (out: seq<int>)
    ensures |out| == |events| && forall i :: 0 <= i < |events| ==> out[i] == events[i].seqNo
  {
    seq(|events|, i requires 0 <= i < |events| => events[i].seqNo)
  }

  lemma {:induction false} PullInOrder(db: Db, consumer: string, cursor: int, limit: int, peerId: string)
    requires WfEvents(db.events, db.eventSeq)
    ensures
      var batch := Pull(db, consumer, cursor, limit, peerId);
      && (forall i, j :: 0 <= i < j < |batch| ==> batch[i].seqNo < batch[j].seqNo)
      && (forall i :: 0 <= i < |batch| ==> batch[i] in db.events && cursor < batch[i].seqNo)
  {
    var keep := Pullable(db.acks, consumer, cursor, peerId);
    var batch := Pull(db, consumer, cursor, limit, peerId);
    SelectOrdered(db.events, keep, PullLimit(limit), (e: Event) => e.seqNo);
    assert forall i :: 0 <= i < |batch| ==> batch[i] in batch && keep(batch[i]);
  }

  /** A batch lies between the old cursor and the new one, in order. */
  lemma {:induction false} PullMovesCursor(db: Db, consumer: string, cursor: int, limit: int, peerId: string)
    requires WfEvents(db.events, db.eventSeq)
    ensures
      var batch := Pull(db, consumer, cursor, limit, peerId);
      var cursor' := NextCursor(cursor, batch);
      && cursor <= cursor' && (cursor' == cursor || cursor' <= db.eventSeq)
      && (forall i, j :: 0 <= i < j < |batch| ==> batch[i].seqNo < batch[j].seqNo)
      && (forall i :: 0 <= i < |batch| ==> cursor < batch[i].seqNo <= cursor')
  {
    hide Pull;
    PullInOrder(db, consumer, cursor, limit, peerId);
  }

  /** An event the consumer is waiting for: past its cursor, not acked by it, and of the peer it named. */
  ghost predicate Wanted(db: Db, consumer: string, cursor: int, peerId: string, e: Event) {
    e in db.events && cursor < e.seqNo && (consumer, e.eventId) !in db.acks && (peerId == "" || e.peerId == peerId)
  }

  /** A batch holds wanted events only, in order, no more than the limit (20 if none is given), every
      one up to where it stops, and every one there is when it is not full. */
  ghost predicate IsBatch(db: Db, consumer: string, cursor: int, limit: int, peerId: string, batch: seq<Event>) {
    var most := if limit <= 0 then 20 else limit;
    && |batch| <= most
    && (forall i, j :: 0 <= i < j < |batch| ==> batch[i].seqNo < batch[j].seqNo)
    && (forall e :: e in batch ==> Wanted(db, consumer, cursor, peerId, e))
    && (forall e :: Wanted(db, consumer, cursor, peerId, e) && (|batch| < most || e.seqNo <= batch[|batch| - 1].seqNo) ==> e in batch)
  }

  lemma {:induction false} PullableIsWanted(db: Db, consumer: string, cursor: int, peerId: string, e: Event)
    requires e in db.events
    ensures Pullable(db.acks, consumer, cursor, peerId)(e) <==> Wanted(db, consumer, cursor, peerId, e)
  {
    assert Unread(db.acks, consumer)(e) <==> (consumer, e.eventId) !in db.acks;
  }

  lemma {:induction false} PullIsBatch(db: Db, consumer: string, cursor: int, limit: int, peerId: string)
    requires WfEvents(db.events, db.eventSeq)
    ensures IsBatch(db, consumer, cursor, limit, peerId, Pull(db, consumer, cursor, limit, peerId))
  {
    hide Pullable, Unread, WfEvents, Select;
    var keep := Pullable(db.acks, consumer, cursor, peerId);
    var batch := Pull(db, consumer, cursor, limit, peerId);
    PullInOrder(db, consumer, cursor, limit, peerId);
    SelectComplete(db.events, keep, PullLimit(limit));
    forall e | e in batch ensures Wanted(db, consumer, cursor, peerId, e) {
      PullableIsWanted(db, consumer, cursor, peerId, e);
    }
    forall e | Wanted(db, consumer, cursor, peerId, e) && |batch| < PullLimit(limit) ensures e in batch {
      PullableIsWanted(db, consumer, cursor, peerId, e);
    }
    forall e | Wanted(db, consumer, cursor, peerId, e) && batch != [] && e.seqNo <= batch[|batch| - 1].seqNo ensures e in batch {
      PullIsGapless(db, consumer, cursor, limit, peerId, e);
    }
  }

  /** A pull passes over no wanted event. */
  lemma {:induction false} PullIsGapless(db: Db, consumer: string, cursor: int, limit: int, peerId: string, e: Event)
    requires WfEvents(db.events, db.eventSeq) && Wanted(db, consumer, cursor, peerId, e)
    requires e.seqNo <= NextCursor(cursor, Pull(db, consumer, cursor, limit, peerId))
    ensures e in Pull(db, consumer, cursor, limit, peerId)
  {
    PullableIsWanted(db, consumer, cursor, peerId, e);
    var keep := Pullable(db.acks, consumer, cursor, peerId);
    var batch := Pull(db, consumer, cursor, limit, peerId);
    SelectOrdered(db.events, keep, PullLimit(limit), (e: Event) => e.seqNo);
    assert batch != [] ==> batch[|batch| - 1] in batch;
  }

  /** The pull that passed the event either delivered it or found it acked. */
  ghost predicate Accounted(pulls: seq<Pulled>, consumer: string, e: Event) {
    exists i :: 0 <= i < |pulls| && PassedBy(pulls[i], consumer, e)
  }

  ghost predicate PassedBy(p: Pulled, consumer: string, e: Event) {
    && p.cursor < e.seqNo <= NextCursor(p.cursor, p.batch)
    && (e.seqNo in SeqNos(p.batch) || (consumer, e.eventId) in p.db.acks)
  }

  /** One pull accounts for every matching event it passes, also as the event will later look. */
  lemma {:induction false} PassedEvents(db: Db, db': Db, consumer: string, cursor: int, limit: int, peerId: string, e: Event)
    requires Wf(db) && Grows(db, db') && e in db'.events && (peerId == "" || e.peerId == peerId)
    requires cursor < e.seqNo <= NextCursor(cursor, Pull(db, consumer, cursor, limit, peerId))
    ensures PassedBy(Pulled(db, cursor, Pull(db, consumer, cursor, limit, peerId)), consumer, e)
  {
    hide Pull, AckReferences, PushReferences, WfPush, WfA2A, WfMedia;
    var batch := Pull(db, consumer, cursor, limit, peerId);
    PullMovesCursor(db, consumer, cursor, limit, peerId);
    var k: nat :| k < |db'.events| && db'.events[k] == e;
    assert k < |db.events|;
    assert SameEvent(db.events[k], e);
    if (consumer, e.eventId) !in db.acks {
      var was := db.events[k];
      assert was.eventId == e.eventId && was.seqNo == e.seqNo && was.peerId == e.peerId;
      assert Wanted(db, consumer, cursor, peerId, was);
      PullIsGapless(db, consumer, cursor, limit, peerId, db.events[k]);
      var i: nat :| i < |batch| && batch[i] == db.events[k];
      assert SeqNos(batch)[i] == e.seqNo;
    }
  }

  lemma {:induction false} AfterPullsKeepsWf(cfg: Config, s: Sys, visits: seq<Visit>)
    requires Wf(s.db)
    ensures Wf(AfterPulls(cfg, s, visits).db) && Grows(s.db, AfterPulls(cfg, s, visits).db)
    decreases |visits|
  {
    hide Wf, Grows;
    GrowsSelf(s.db);
    if visits != [] {
      var s' := Run(cfg, s, visits[0].before);
      RunKeepsWf(cfg, s, visits[0].before);
      AfterPullsKeepsWf(cfg, s', visits[1..]);
      GrowsTrans(s.db, s'.db, AfterPulls(cfg, s, visits).db);
    }
  }

  ghost predicate InOrder(pulls: seq<Pulled>, cursor: int) {
    var seqNos := Delivered(pulls);
    && (forall i, j :: 0 <= i < j < |seqNos| ==> seqNos[i] < seqNos[j])
    && (forall i :: 0 <= i < |seqNos| ==> cursor < seqNos[i] <= FinalCursor(cursor, pulls))
    && cursor <= FinalCursor(cursor, pulls)
  }

  ghost predicate NothingLost(pulls: seq<Pulled>, consumer: string, peerId: string, cursor: int, events: seq<Event>) {
    forall e :: e in events && cursor < e.seqNo <= FinalCursor(cursor, pulls) && (peerId == "" || e.peerId == peerId)
      ==> Accounted(pulls, consumer, e)
  }

  ghost predicate OnlyWanted(pulls: seq<Pulled>, consumer: string, peerId: string) {
    forall p, e :: p in pulls && e in p.batch ==> Wanted(p.db, consumer, p.cursor, peerId, e)
  }

  lemma {:induction false} WfHasEvents(db: Db)
    requires Wf(db)
    ensures WfEvents(db.events, db.eventSeq)
  {
  }

  /** Pulls that go on from where the first one stopped. */
  ghost predicate GoesOn(p: Pulled, rest: seq<Pulled>) {
    rest != [] ==> rest[0].cursor == NextCursor(p.cursor, p.batch)
  }

  lemma {:induction false} CursorOfTail(p: Pulled, rest: seq<Pulled>)
    requires GoesOn(p, rest)
    ensures FinalCursor(p.cursor, [p] + rest) == FinalCursor(NextCursor(p.cursor, p.batch), rest)
  {
    if rest != [] {
      assert ([p] + rest)[|rest|] == rest[|rest| - 1];
    }
  }

  lemma {:induction false} VisitInOrder(p: Pulled, rest: seq<Pulled>, consumer: string, limit: int, peerId: string)
    requires Wf(p.db) && p.batch == Pull(p.db, consumer, p.cursor, limit, peerId) && GoesOn(p, rest)
    requires InOrder(rest, NextCursor(p.cursor, p.batch))
    ensures InOrder([p] + rest, p.cursor)
  {
    hide Wf, WfEvents, Pull, FinalCursor, NextCursor;
    WfHasEvents(p.db);
    PullMovesCursor(p.db, consumer, p.cursor, limit, peerId);
    CursorOfTail(p, rest);
    assert ([p] + rest)[1..] == rest;
    assert Delivered([p] + rest) == SeqNos(p.batch) + Delivered(rest);
  }

  lemma {:induction false} VisitLosesNothing(p: Pulled, rest: seq<Pulled>, consumer: string, limit: int, peerId: string, end: Db)
    requires Wf(p.db) && Grows(p.db, end) && p.batch == Pull(p.db, consumer, p.cursor, limit, peerId) && GoesOn(p, rest)
    requires NothingLost(rest, consumer, peerId, NextCursor(p.cursor, p.batch), end.events)
    ensures NothingLost([p] + rest, consumer, peerId, p.cursor, end.events)
  {
    hide Wf, Grows, PassedBy, Pull, FinalCursor, NextCursor;
    CursorOfTail(p, rest);
    var pulls, cursor' := [p] + rest, NextCursor(p.cursor, p.batch);
    forall e | e in end.events && p.cursor < e.seqNo <= FinalCursor(p.cursor, pulls) && (peerId == "" || e.peerId == peerId)
      ensures Accounted(pulls, consumer, e)
    {
      if e.seqNo <= cursor' {
        PassedEvents(p.db, end, consumer, p.cursor, limit, peerId, e);
        assert PassedBy(pulls[0], consumer, e);
      } else {
        assert Accounted(rest, consumer, e);
        var i :| 0 <= i < |rest| && PassedBy(rest[i], consumer, e);
        assert PassedBy(pulls[i + 1], consumer, e);
      }
    }
  }

  lemma {:induction false} PullsGoOn(cfg: Config, s: Sys, consumer: string, peerId: string, cursor: int, batch: seq<Event>, visits: seq<Visit>)
    ensures GoesOn(Pulled(s.db, cursor, batch), Pulls(cfg, s, consumer, peerId, NextCursor(cursor, batch), visits))
  {
    hide Pull, Run;
  }

  lemma {:induction false} PullsAccount(cfg: Config, s: Sys, consumer: string, peerId: string, cursor: int, visits: seq<Visit>)
    requires Wf(s.db)
    ensures
      var pulls := Pulls(cfg, s, consumer, peerId, cursor, visits);
      && InOrder(pulls, cursor) && NothingLost(pulls, consumer, peerId, cursor, AfterPulls(cfg, s, visits).db.events)
      && OnlyWanted(pulls, consumer, peerId)
    decreases |visits|
  {
    if visits == [] {
      assert Delivered([]) == [];
    } else {
      hide Wf, Grows, Pull, InOrder, NothingLost, GoesOn, Run, Wanted;
      var s' := Run(cfg, s, visits[0].before);
      var p := Pulled(s'.db, cursor, Pull(s'.db, consumer, cursor, visits[0].limit, peerId));
      var cursor' := NextCursor(cursor, p.batch);
      var rest := Pulls(cfg, s', consumer, peerId, cursor', visits[1..]);
      RunKeepsWf(cfg, s, visits[0].before);
      AfterPullsKeepsWf(cfg, s', visits[1..]);
      PullsAccount(cfg, s', consumer, peerId, cursor', visits[1..]);
      PullsGoOn(cfg, s', consumer, peerId, cursor, p.batch, visits[1..]);
      WfHasEvents(s'.db);
      PullIsBatch(s'.db, consumer, cursor, visits[0].limit, peerId);
      assert OnlyWanted([p] + rest, consumer, peerId);
      VisitInOrder(p, rest, consumer, visits[0].limit, peerId);
      VisitLosesNothing(p, rest, consumer, visits[0].limit, peerId, AfterPulls(cfg, s, visits).db);
    }
  }

  /** Cursor pulls lose and repeat nothing.  With inserts, acks and flushes interleaved in any way,
      the delivered sequence numbers strictly increase; and every event for the peer between the
      first cursor and the last was delivered, or was already acked by this consumer in the pull
      that passed it.  Nothing else is delivered: each delivered event was then past the cursor, of
      the peer, and not acked. */
  lemma {:induction false} PullsLoseNothing(cfg: Config, s: Sys, consumer: string, peerId: string, cursor: int, visits: seq<Visit>)
    requires Wf(s.db)
    ensures
      var pulls := Pulls(cfg, s, consumer, peerId, cursor, visits);
      var last := FinalCursor(cursor, pulls);
      && cursor <= last
      && (forall i, j :: 0 <= i < j < |Delivered(pulls)| ==> Delivered(pulls)[i] < Delivered(pulls)[j])
      && (forall i :: 0 <= i < |Delivered(pulls)| ==> cursor < Delivered(pulls)[i] <= last)
      && (forall e :: e in AfterPulls(cfg, s, visits).db.events && cursor < e.seqNo <= last && (peerId == "" || e.peerId == peerId)
            ==> Accounted(pulls, consumer, e))
      && (forall p, e :: p in pulls && e in p.batch ==> Wanted(p.db, consumer, p.cursor, peerId, e))
  {
    hide Wf, Pulls, AfterPulls, Delivered, FinalCursor, Accounted, Wanted;
    PullsAccount(cfg, s, consumer, peerId, cursor, visits);
  }

  // --------------------------------------------------------------------- acks

  /** Acking again returns the first time and touches neither acks nor routes. */
  lemma {:induction false} AckAgainChangesNothing(db: Db, consumer: string, eventId: string, b: Option<Tables.Binding>, now: int)
    requires Wf(db) && (consumer, eventId) in db.acks
    ensures
      var db', out := AckEvent(db, consumer, eventId, b, now), AckOutcome(db, consumer, eventId, b, now);
      && db'.acks == db.acks && db'.routes == db.routes && db'.media == db.media
      && out == AckResult(true, db.acks[(consumer, eventId)], false, false, AlreadyAcked)
  {
    assert Known(db.events, eventId);
  }

  /** Whether a label is an ack of the event by the consumer that reports it as the first. */
  predicate FirstAck(s: Sys, l: Label, consumer: string, eventId: string) {
    && l.Op? && l.op.Ack? && l.op.consumer == consumer && l.op.eventId == eventId
    && AckOutcome(s.db, consumer, eventId, l.op.binding, s.clock).inserted
  }

  function FirstAcks(cfg: Config, s: Sys, ls: seq<Label>, consumer: string, eventId: string): nat
    decreases |ls|
  {
    if ls == [] then 0
    else (if FirstAck(s, ls[0], consumer, eventId) then 1 else 0) + FirstAcks(cfg, Step(cfg, s, ls[0]), ls[1..], consumer, eventId)
  }

  lemma {:induction false} StepAcks(cfg: Config, s: Sys, l: Label, consumer: string, eventId: string)
    ensures (consumer, eventId) in Step(cfg, s, l).db.acks <==> (consumer, eventId) in s.db.acks || FirstAck(s, l, consumer, eventId)
    ensures (consumer, eventId) in s.db.acks ==> !FirstAck(s, l, consumer, eventId)
  {
    hide PushStep, A2AStep, MediaStep, Apply, AckOutcome;
    match l
    case Op(op) => OpAcks(s.db, op, s.clock, consumer, eventId);
    case Push(pl) => PushWrites(cfg, s.db, s.push, s.pushLog, pl, s.clock);
    case A2A(al) => A2AWrites(cfg, s.db, s.a2a, s.a2aLog, al, s.clock);
    case Media(ml) => MediaWrites(cfg, s.db, s.media, s.mediaLog, ml, s.clock);
    case _ =>
  }

  lemma {:induction false} AckWrites(db: Db, consumer: string, eventId: string, b: Option<Tables.Binding>, now: int)
    ensures AckOutcome(db, consumer, eventId, b, now).inserted <==> EventAt(db.events, eventId) < |db.events| && (consumer, eventId) !in db.acks
    ensures AckEvent(db, consumer, eventId, b, now).acks
         == if AckOutcome(db, consumer, eventId, b, now).inserted then db.acks[(consumer, eventId) := now] else db.acks
  {
    hide BindOutcome, EventAt;
  }

  lemma {:induction false} OpAcks(db: Db, op: StoreOp, now: int, consumer: string, eventId: string)
    ensures (consumer, eventId) in Apply(db, op, now).acks <==>
      || (consumer, eventId) in db.acks
      || (op.Ack? && op.consumer == consumer && op.eventId == eventId && AckOutcome(db, consumer, eventId, op.binding, now).inserted)
    ensures (consumer, eventId) in db.acks && op.Ack? ==> !AckOutcome(db, consumer, eventId, op.binding, now).inserted
  {
    hide InsertOutcome, AckEvent, AckOutcome;
    if op.Ack? {
      AckWrites(db, op.consumer, op.eventId, op.binding, now);
      AckWrites(db, consumer, eventId, op.binding, now);
    }
  }

  /** Over any run, an ack that was not there before is reported as the first exactly once if it is
      there at the end, and never otherwise; an ack that was there is never reported again. */
  lemma {:induction false} OneFirstAck(cfg: Config, s: Sys, ls: seq<Label>, consumer: string, eventId: string)
    ensures
      var k := (consumer, eventId);
      FirstAcks(cfg, s, ls, consumer, eventId) == if k in Run(cfg, s, ls).db.acks && k !in s.db.acks then 1 else 0
    ensures (consumer, eventId) in s.db.acks ==> (consumer, eventId) in Run(cfg, s, ls).db.acks
    decreases |ls|
  {
    hide Step, FirstAck;
    if ls != [] {
      StepAcks(cfg, s, ls[0], consumer, eventId);
      OneFirstAck(cfg, Step(cfg, s, ls[0]), ls[1..], consumer, eventId);
    }
  }

  /** However many consumers ack however often, an event gets at most one media row. */
  lemma {:induction false} OneNotificationPerEvent(cfg: Config, clock: nat, ls: seq<Label>, eventId: string)
    ensures Count(Run(cfg, Init(clock), ls).db.media, (r: MediaRow) => r.eventId == eventId) <= 1
  {
    RunKeepsWf(cfg, Init(clock), ls);
    CountUnique(Run(cfg, Init(clock), ls).db.media, eventId);
  }

  lemma {:induction false} CountUnique(media: seq<MediaRow>, eventId: string)
    requires forall i, j :: 0 <= i < j < |media| ==> media[i].eventId != media[j].eventId
    ensures Count(media, (r: MediaRow) => r.eventId == eventId) <= 1
    ensures (forall i :: 0 <= i < |media| ==> media[i].eventId != eventId) ==> Count(media, (r: MediaRow) => r.eventId == eventId) == 0
  {
    if media != [] {
      CountUnique(media[1..], eventId);
      assert forall i :: 0 <= i < |media[1..]| ==> media[1..][i] == media[i + 1];
    }
  }
}
